/**
 * Query-personalised PageRank over the evidence graph (backend/src/authority.rs),
 * with real numbers for its floats: which edges carry authority, the in-place
 * iteration, and what forty rounds of it are worth.
 */
module PageRank {
  import opened Vectors

  const DAMPING := 0.85
  const ITERATIONS: nat := 40
  /** The machine epsilon of a 32-bit float. */
  const EPSILON := 1.0 / 8388608.0

  datatype Edge = Edge(source: string, target: string, relation: string, provenance: string, weight: real)

  datatype Link = Link(target: nat, weight: real)

  // ---- which edges count ----

  function ProvenanceWeight(provenance: string): real {
    if provenance == "organic" then 1.0
    else if provenance == "admin_verified" then 1.1
    else if provenance == "outcome_verified" then 1.3
    else 0.0
  }

  function RelationWeight(relation: string): real {
    if relation == "cites" then 0.8
    else if relation == "corroborates" then 1.0
    else if relation == "endorses" then 0.7
    else if relation == "verified_outcome" then 1.2
    else if relation == "contextualizes" then 0.35
    else 0.0
  }

  function EffectiveWeight(e: Edge): real {
    var clamped := if e.weight < 0.0 then 0.0 else if e.weight > 2.0 then 2.0 else e.weight;
    clamped * ProvenanceWeight(e.provenance) * RelationWeight(e.relation)
  }

  /** Authority passes only on a positive weight, a vetted provenance and a supporting relation. */
  lemma WhoPassesAuthority(e: Edge)
    ensures 0.0 <= EffectiveWeight(e)
    ensures EffectiveWeight(e) > 0.0 <==>
      && e.weight > 0.0
      && e.provenance in {"organic", "admin_verified", "outcome_verified"}
      && e.relation in {"cites", "corroborates", "endorses", "verified_outcome", "contextualizes"}
  {
    var clamped := if e.weight < 0.0 then 0.0 else if e.weight > 2.0 then 2.0 else e.weight;
    PositiveProduct(clamped, ProvenanceWeight(e.provenance));
    PositiveProduct(clamped * ProvenanceWeight(e.provenance), RelationWeight(e.relation));
  }

  lemma PositiveProduct(a: real, b: real)
    requires 0.0 <= a && 0.0 <= b
    ensures 0.0 <= a * b && (a * b > 0.0 <==> a > 0.0 && b > 0.0)
  {
  }

  predicate Reciprocated(edges: seq<Edge>, e: Edge) {
    exists o :: o in edges && o.source == e.target && o.target == e.source && EffectiveWeight(o) > 0.0
  }

  /** Collecting into a hash map: the last of two equal identifiers wins. */
  function Positions(ids: seq<string>): (r: map<string, nat>)
    ensures forall id :: id in r ==> r[id] < |ids| && ids[r[id]] == id
  {
    if |ids| == 0 then map[] else Positions(ids[..|ids| - 1])[ids[|ids| - 1] := |ids| - 1]
  }

  function PassedWeight(edges: seq<Edge>, e: Edge): real {
    EffectiveWeight(e) * (if Reciprocated(edges, e) && e.provenance == "organic" then 0.2 else 1.0)
  }

  /** Vouching for each other never pays: the pair passes less than half of what its better edge would alone. */
  lemma MutualVouchingPassesLess(edges: seq<Edge>, e: Edge, f: Edge)
    requires e in edges && f in edges && e.source == f.target && e.target == f.source
    requires e.provenance == "organic" && f.provenance == "organic"
    requires EffectiveWeight(e) > 0.0 && EffectiveWeight(f) > 0.0
    ensures PassedWeight(edges, e) + PassedWeight(edges, f)
      <= 0.4 * (if EffectiveWeight(e) < EffectiveWeight(f) then EffectiveWeight(f) else EffectiveWeight(e))
  {
    assert Reciprocated(edges, e) && Reciprocated(edges, f);
  }

  /** An edge becomes a link when both ends are distinct known nodes and it passes some weight. */
  predicate Contributes(ids: seq<string>, edges: seq<Edge>, e: Edge) {
    var positions := Positions(ids);
    && e.source in positions && e.target in positions
    && positions[e.source] != positions[e.target]
    && PassedWeight(edges, e) > 0.0
  }

  /** The link an edge gives to the node `source`, if any. */
  function LinkOf(ids: seq<string>, edges: seq<Edge>, e: Edge, source: nat): (links: seq<Link>)
    ensures LinksWithin(links, |ids|)
  {
    if Contributes(ids, edges, e) && Positions(ids)[e.source] == source
    then [Link(Positions(ids)[e.target], PassedWeight(edges, e))] else []
  }

  /** The links of one node that the first `k` edges give. */
  function LinksFrom(ids: seq<string>, edges: seq<Edge>, k: nat, source: nat): (links: seq<Link>)
    requires k <= |edges|
    ensures LinksWithin(links, |ids|)
  {
    if k == 0 then []
    else
      LinksFrom(ids, edges, k - 1, source) + LinkOf(ids, edges, edges[k - 1], source)
  }

  predicate LinksWithin(links: seq<Link>, n: nat) {
    forall i :: 0 <= i < |links| ==> links[i].target < n && links[i].weight > 0.0
  }

  function Outgoing(ids: seq<string>, edges: seq<Edge>): (r: seq<seq<Link>>)
    ensures |r| == |ids| && forall s :: 0 <= s < |r| ==> LinksWithin(r[s], |ids|)
  {
    seq(|ids|, s requires 0 <= s < |ids| => LinksFrom(ids, edges, |edges|, s))
  }

  // ---- one round ----

  function TotalWeight(links: seq<Link>): real {
    if |links| == 0 then 0.0 else TotalWeight(links[..|links| - 1]) + links[|links| - 1].weight
  }

  function Spread(links: seq<Link>, total: real, n: nat): (r: Vector)
    requires LinksWithin(links, n) && total > 0.0
    ensures |r| == n
  {
    if |links| == 0 then Zero(n)
    else
      var r := Spread(links[..|links| - 1], total, n);
      var link := links[|links| - 1];
      r[link.target := r[link.target] + link.weight / total]
  }

  predicate Dangling(links: seq<Link>) {
    TotalWeight(links) <= EPSILON
  }

  /** Where the mass of one node goes: along its links, or back to the teleport distribution. */
  function Column(teleport: Vector, links: seq<Link>): (r: Vector)
    requires LinksWithin(links, |teleport|)
    ensures |r| == |teleport|
  {
    if Dangling(links) then teleport else Spread(links, TotalWeight(links), |teleport|)
  }

  function ColumnsOf(teleport: Vector, outgoing: seq<seq<Link>>): (r: seq<Vector>)
    requires forall s :: 0 <= s < |outgoing| ==> LinksWithin(outgoing[s], |teleport|)
    ensures |r| == |outgoing| && Columns(r, |teleport|)
    ensures forall s :: 0 <= s < |r| ==> r[s] == Column(teleport, outgoing[s])
  {
    seq(|outgoing|, s requires 0 <= s < |outgoing| => Column(teleport, outgoing[s]))
  }

  predicate Transitions(teleport: Vector, cols: seq<Vector>) {
    && |cols| == |teleport| > 0 && Columns(cols, |teleport|)
    && Distribution(teleport) && AllDistributions(cols)
  }

  function Advance(teleport: Vector, cols: seq<Vector>, x: Vector): (r: Vector)
    requires |x| == |cols| == |teleport| && Columns(cols, |teleport|)
    ensures |r| == |x|
  {
    Add(Scale(1.0 - DAMPING, teleport), Scale(DAMPING, Mix(x, cols, |teleport|)))
  }

  function NormaliseOrUniform(v: Vector): (r: Vector)
    requires |v| > 0
    ensures |r| == |v|
  {
    var total := Sum(v);
    if total <= EPSILON then seq(|v|, _ => 1.0 / |v| as real)
    else seq(|v|, i requires 0 <= i < |v| => v[i] / total)
  }

  function Iterated(teleport: Vector, cols: seq<Vector>, start: Vector, rounds: nat): (r: Vector)
    requires |start| == |cols| == |teleport| > 0 && Columns(cols, |teleport|)
    ensures |r| == |start|
  {
    if rounds == 0 then start
    else NormaliseOrUniform(Advance(teleport, cols, Iterated(teleport, cols, start, rounds - 1)))
  }

  function RawTeleport(ids: seq<string>, weights: map<string, real>): (r: Vector)
    ensures |r| == |ids| && Nonnegative(r)
  {
    seq(|ids|, i requires 0 <= i < |ids| => if ids[i] in weights && weights[ids[i]] > 0.0 then weights[ids[i]] else 0.0)
  }

  function Teleport(ids: seq<string>, weights: map<string, real>): (r: Vector)
    requires |ids| > 0
    ensures |r| == |ids|
  {
    NormaliseOrUniform(RawTeleport(ids, weights))
  }

  /** The rank vector, node by node. */
  function Ranks(ids: seq<string>, edges: seq<Edge>, weights: map<string, real>): (r: Vector)
    requires |ids| > 0
    ensures |r| == |ids|
  {
    var teleport := Teleport(ids, weights);
    Iterated(teleport, ColumnsOf(teleport, Outgoing(ids, edges)), teleport, ITERATIONS)
  }

  /** Zipping identifiers and ranks into a hash map. */
  function Zipped(ids: seq<string>, ranks: Vector): map<string, real>
    requires |ids| == |ranks|
  {
    if |ids| == 0 then map[] else Zipped(ids[..|ids| - 1], ranks[..|ids| - 1])[ids[|ids| - 1] := ranks[|ids| - 1]]
  }

  // ---- the loops of the original ----

  lemma NextLinks(ids: seq<string>, edges: seq<Edge>, k: nat, s: nat)
    requires k < |edges|
    ensures LinksFrom(ids, edges, k + 1, s) == LinksFrom(ids, edges, k, s) + LinkOf(ids, edges, edges[k], s)
  {
  }

  /** Only its own source gets a link from an edge. */
  lemma LinkGoesToSource(ids: seq<string>, edges: seq<Edge>, e: Edge, s: nat)
    ensures LinkOf(ids, edges, e, s) ==
      if Contributes(ids, edges, e) && s == Positions(ids)[e.source]
      then [Link(Positions(ids)[e.target], PassedWeight(edges, e))] else []
  {
  }

  method CollectLinks(ids: seq<string>, edges: seq<Edge>) returns (outgoing: array<seq<Link>>)
    ensures fresh(outgoing) && outgoing[..] == Outgoing(ids, edges)
  {
    hide PassedWeight, LinksFrom, LinkOf, Positions;
    var positions := Positions(ids);
    NoLinksYet(ids, edges);
    outgoing := new seq<Link>[|ids|](_ => []);
    var k := 0;
    while k < |edges|
      invariant 0 <= k <= |edges|
      invariant forall s :: 0 <= s < |ids| ==> outgoing[s] == LinksFrom(ids, edges, k, s)
    {
      var edge := edges[k];
      forall s | 0 <= s < |ids|
        ensures LinksFrom(ids, edges, k + 1, s) == LinksFrom(ids, edges, k, s) +
          if Contributes(ids, edges, edge) && s == positions[edge.source]
          then [Link(positions[edge.target], PassedWeight(edges, edge))] else []
      {
        NextLinks(ids, edges, k, s);
        LinkGoesToSource(ids, edges, edge, s);
      }
      if edge.source in positions && edge.target in positions && positions[edge.source] != positions[edge.target] {
        var weight := PassedWeight(edges, edge);
        if weight > 0.0 {
          var source := positions[edge.source];
          outgoing[source] := outgoing[source] + [Link(positions[edge.target], weight)];
        }
      }
      k := k + 1;
    }
  }

  lemma NoLinksYet(ids: seq<string>, edges: seq<Edge>)
    ensures forall s: nat :: LinksFrom(ids, edges, 0, s) == []
  {
  }

  method NormaliseInPlace(values: array<real>)
    requires values.Length > 0
    modifies values
    ensures values[..] == NormaliseOrUniform(old(values[..]))
  {
    ghost var was := values[..];
    var total := Sum(values[..]);
    var i := 0;
    if total <= EPSILON {
      while i < values.Length
        invariant 0 <= i <= values.Length
        invariant forall j :: 0 <= j < i ==> values[j] == 1.0 / values.Length as real
      {
        values[i] := 1.0 / values.Length as real;
        i := i + 1;
      }
    } else {
      while i < values.Length
        invariant 0 <= i <= values.Length
        invariant forall j :: 0 <= j < i ==> values[j] == was[j] / total
        invariant forall j :: i <= j < values.Length ==> values[j] == was[j]
      {
        values[i] := values[i] / total;
        i := i + 1;
      }
    }
  }

  /** The links of one node each receive their share of `amount`. */
  method PassAlong(next: array<real>, links: seq<Link>, total: real, amount: real)
    requires LinksWithin(links, next.Length) && total > 0.0
    modifies next
    ensures next[..] == Add(old(next[..]), Scale(amount, Spread(links, total, next.Length)))
  {
    ghost var was := next[..];
    ghost var n := next.Length;
    NothingSpread(was, amount);
    var j := 0;
    while j < |links|
      invariant 0 <= j <= |links|
      invariant next[..] == Add(was, Scale(amount, Spread(links[..j], total, n)))
    {
      var link := links[j];
      SharePassed(was, Spread(links[..j], total, n), amount, link.target, link.weight / total);
      assert links[..j + 1][..j] == links[..j];
      next[link.target] := next[link.target] + Times(amount, link.weight / total);
      j := j + 1;
    }
    assert links[..j] == links;
  }

  lemma NothingSpread(was: Vector, amount: real)
    ensures Add(was, Scale(amount, Zero(|was|))) == was
  {
  }

  lemma SharePassed(was: Vector, spread: Vector, amount: real, target: nat, share: real)
    requires |was| == |spread| && target < |was|
    ensures var before := Add(was, Scale(amount, spread));
      Add(was, Scale(amount, spread[target := spread[target] + share]))
        == before[target := before[target] + Times(amount, share)]
  {
    Distributes(amount, spread[target], share);
    hide Times;
  }

  /** What a node passes along its links; nothing when it dangles. */
  function LiveColumn(links: seq<Link>, n: nat): (r: Vector)
    requires LinksWithin(links, n)
    ensures |r| == n
  {
    if Dangling(links) then Zero(n) else Spread(links, TotalWeight(links), n)
  }

  function LiveColumns(outgoing: seq<seq<Link>>, n: nat): (r: seq<Vector>)
    requires forall s :: 0 <= s < |outgoing| ==> LinksWithin(outgoing[s], n)
    ensures |r| == |outgoing| && Columns(r, n)
    ensures forall s :: 0 <= s < |r| ==> r[s] == LiveColumn(outgoing[s], n)
  {
    seq(|outgoing|, s requires 0 <= s < |outgoing| => LiveColumn(outgoing[s], n))
  }

  function DanglingMass(x: Vector, outgoing: seq<seq<Link>>): real
    requires |x| == |outgoing|
  {
    if |x| == 0 then 0.0
    else
      DanglingMass(x[..|x| - 1], outgoing[..|x| - 1])
      + (if Dangling(outgoing[|x| - 1]) then x[|x| - 1] else 0.0)
  }

  /** Collecting the dangling mass apart and handing it out at the end is the same mixture. */
  lemma {:induction false} DanglingApart(teleport: Vector, outgoing: seq<seq<Link>>, x: Vector)
    requires |x| == |outgoing| && forall s :: 0 <= s < |outgoing| ==> LinksWithin(outgoing[s], |teleport|)
    ensures Mix(x, ColumnsOf(teleport, outgoing), |teleport|)
      == Add(Mix(x, LiveColumns(outgoing, |teleport|), |teleport|), Scale(DanglingMass(x, outgoing), teleport))
  {
    hide Times, Column, LiveColumn, Dangling;
    var n := |teleport|;
    if |x| == 0 {
      forall i | 0 <= i < n ensures Times(0.0, teleport[i]) == 0.0 {
        TimesZero(teleport[i]);
      }
    } else {
      var k := |x| - 1;
      DanglingApart(teleport, outgoing[..k], x[..k]);
      assert ColumnsOf(teleport, outgoing)[..k] == ColumnsOf(teleport, outgoing[..k]);
      assert LiveColumns(outgoing, n)[..k] == LiveColumns(outgoing[..k], n);
      var live := Mix(x[..k], LiveColumns(outgoing[..k], n), n);
      DanglingStep(live, DanglingMass(x[..k], outgoing[..k]), x[k], teleport, outgoing[k]);
    }
  }

  lemma TimesZero(a: real)
    ensures Times(0.0, a) == 0.0 && Times(a, 0.0) == 0.0
  {
  }

  lemma DanglingStep(live: Vector, mass: real, x: real, teleport: Vector, links: seq<Link>)
    requires |live| == |teleport| && LinksWithin(links, |teleport|)
    ensures Add(Add(live, Scale(mass, teleport)), Scale(x, Column(teleport, links)))
      == Add(Add(live, Scale(x, LiveColumn(links, |teleport|))),
             Scale(mass + (if Dangling(links) then x else 0.0), teleport))
  {
    hide Times, Spread;
    forall i | 0 <= i < |teleport|
      ensures Times(mass + x, teleport[i]) == Times(mass, teleport[i]) + Times(x, teleport[i])
    {
      Distributes(teleport[i], mass, x);
    }
    TimesZero(x);
  }

  /** One more share of mass under the damping factor. */
  lemma DampedStep(base: Vector, mixed: Vector, a: real, c: Vector)
    requires |base| == |mixed| == |c|
    ensures Add(Add(base, Scale(DAMPING, mixed)), Scale(Times(DAMPING, a), c))
      == Add(base, Scale(DAMPING, Add(mixed, Scale(a, c))))
  {
    hide Times;
    forall i | 0 <= i < |c|
      ensures Times(DAMPING, mixed[i]) + Times(Times(DAMPING, a), c[i]) == Times(DAMPING, mixed[i] + Times(a, c[i]))
    {
      Distributes(DAMPING, mixed[i], Times(a, c[i]));
      Reassociate(DAMPING, a, c[i]);
    }
  }

  lemma Reassociate(a: real, b: real, c: real)
    ensures Times(Times(a, b), c) == Times(a, Times(b, c))
  {
  }

  lemma LiveStep(x: Vector, live: seq<Vector>, s: nat, n: nat)
    requires s < |x| == |live| && Columns(live, n)
    ensures Mix(x[..s + 1], live[..s + 1], n) == Add(Mix(x[..s], live[..s], n), Scale(x[s], live[s]))
  {
    assert x[..s + 1][..s] == x[..s] && live[..s + 1][..s] == live[..s];
  }

  lemma MassStep(x: Vector, outgoing: seq<seq<Link>>, s: nat)
    requires s < |x| == |outgoing|
    ensures DanglingMass(x[..s + 1], outgoing[..s + 1])
      == DanglingMass(x[..s], outgoing[..s]) + (if Dangling(outgoing[s]) then x[s] else 0.0)
  {
    assert x[..s + 1][..s] == x[..s] && outgoing[..s + 1][..s] == outgoing[..s];
  }

  lemma NothingYet(n: nat)
    ensures Mix([], [], n) == Zero(n) && DanglingMass([], []) == 0.0
  {
  }

  /** The links' share of a round, collected in place; returns the mass that dangles. */
  method SpreadRanks(teleport: Vector, outgoing: seq<seq<Link>>, rank: Vector, next: array<real>)
    returns (danglingMass: real)
    requires |rank| == |outgoing| == |teleport| == next.Length
    requires forall s :: 0 <= s < |outgoing| ==> LinksWithin(outgoing[s], |teleport|)
    requires next[..] == Scale(1.0 - DAMPING, teleport)
    modifies next
    ensures next[..]
      == Add(Scale(1.0 - DAMPING, teleport), Scale(DAMPING, Mix(rank, LiveColumns(outgoing, |teleport|), |teleport|)))
    ensures danglingMass == DanglingMass(rank, outgoing)
  {
    hide Times, Mix, Spread, TotalWeight, DanglingMass;
    ghost var n := |teleport|;
    ghost var live := LiveColumns(outgoing, n);
    ghost var base := Scale(1.0 - DAMPING, teleport);
    danglingMass := 0.0;
    var source := 0;
    NothingYet(n);
    NothingSpread(base, DAMPING);
    while source < |outgoing|
      invariant 0 <= source <= |outgoing|
      invariant next[..] == Add(base, Scale(DAMPING, Mix(rank[..source], live[..source], n)))
      invariant danglingMass == DanglingMass(rank[..source], outgoing[..source])
    {
      var links := outgoing[source];
      var totalWeight := TotalWeight(links);
      LiveStep(rank, live, source, n);
      MassStep(rank, outgoing, source);
      ghost var mixed := Mix(rank[..source], live[..source], n);
      if totalWeight <= EPSILON {
        danglingMass := danglingMass + rank[source];
        NothingSpread(mixed, rank[source]);
      } else {
        PassAlong(next, links, totalWeight, Times(DAMPING, rank[source]));
        DampedStep(base, mixed, rank[source], live[source]);
      }
      source := source + 1;
    }
    assert rank[..source] == rank && live[..source] == live && outgoing[..source] == outgoing;
  }

  /** The links' shares with the dangling mass added back are the whole round. */
  lemma DanglingHandedOut(teleport: Vector, outgoing: seq<seq<Link>>, rank: Vector)
    requires |rank| == |outgoing| == |teleport| > 0
    requires forall s :: 0 <= s < |outgoing| ==> LinksWithin(outgoing[s], |teleport|)
    ensures var mixed := Mix(rank, LiveColumns(outgoing, |teleport|), |teleport|);
      var shared := Add(Scale(1.0 - DAMPING, teleport), Scale(DAMPING, mixed));
      Add(shared, Scale(Times(DAMPING, DanglingMass(rank, outgoing)), teleport))
        == Advance(teleport, ColumnsOf(teleport, outgoing), rank)
  {
    hide Times, Mix, DanglingMass;
    DampedStep(Scale(1.0 - DAMPING, teleport), Mix(rank, LiveColumns(outgoing, |teleport|), |teleport|),
               DanglingMass(rank, outgoing), teleport);
    DanglingApart(teleport, outgoing, rank);
  }

  method RankRound(teleport: Vector, outgoing: seq<seq<Link>>, rank: Vector) returns (next: array<real>)
    requires |rank| == |outgoing| == |teleport| > 0
    requires forall s :: 0 <= s < |outgoing| ==> LinksWithin(outgoing[s], |teleport|)
    ensures fresh(next) && next[..] == NormaliseOrUniform(Advance(teleport, ColumnsOf(teleport, outgoing), rank))
  {
    hide Times, Mix, DanglingMass, NormaliseOrUniform, Advance;
    next := new real[|teleport|](i requires 0 <= i < |teleport| => Times(1.0 - DAMPING, teleport[i]));
    assert next[..] == Scale(1.0 - DAMPING, teleport);
    var danglingMass := SpreadRanks(teleport, outgoing, rank, next);
    ghost var was := next[..];
    var index := 0;
    while index < |teleport|
      invariant 0 <= index <= next.Length == |teleport|
      invariant forall j :: 0 <= j < index ==> next[j] == was[j] + Times(Times(DAMPING, danglingMass), teleport[j])
      invariant forall j :: index <= j < next.Length ==> next[j] == was[j]
    {
      next[index] := next[index] + Times(Times(DAMPING, danglingMass), teleport[index]);
      index := index + 1;
    }
    assert next[..] == Add(was, Scale(Times(DAMPING, danglingMass), teleport));
    DanglingHandedOut(teleport, outgoing, rank);
    NormaliseInPlace(next);
  }

  method StartingTeleport(ids: seq<string>, weights: map<string, real>) returns (teleport: Vector)
    requires |ids| > 0
    ensures teleport == Teleport(ids, weights)
  {
    var initial := new real[|ids|](i requires 0 <= i < |ids| =>
      if ids[i] in weights && weights[ids[i]] > 0.0 then weights[ids[i]] else 0.0);
    assert initial[..] == RawTeleport(ids, weights);
    NormaliseInPlace(initial);
    return initial[..];
  }

  method Iterate(teleport: Vector, outgoing: seq<seq<Link>>) returns (rank: Vector)
    requires |outgoing| == |teleport| > 0
    requires forall s :: 0 <= s < |outgoing| ==> LinksWithin(outgoing[s], |teleport|)
    ensures rank == Iterated(teleport, ColumnsOf(teleport, outgoing), teleport, ITERATIONS)
  {
    hide Advance, NormaliseOrUniform, Column;
    rank := teleport;
    var round := 0;
    while round < ITERATIONS
      invariant 0 <= round <= ITERATIONS && |rank| == |teleport|
      invariant rank == Iterated(teleport, ColumnsOf(teleport, outgoing), teleport, round)
    {
      var next := RankRound(teleport, outgoing, rank);
      rank := next[..];
      round := round + 1;
    }
  }

  method PersonalizedPageRank(ids: seq<string>, edges: seq<Edge>, weights: map<string, real>)
    returns (ranks: map<string, real>)
    ensures ranks == if |ids| == 0 then map[] else Zipped(ids, Ranks(ids, edges, weights))
  {
    if |ids| == 0 {
      return map[];
    }
    var teleport := StartingTeleport(ids, weights);
    var outgoing := CollectLinks(ids, edges);
    var rank := Iterate(teleport, outgoing[..]);
    return Zipped(ids, rank);
  }
}
