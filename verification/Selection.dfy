/**
 * Choosing the bundle of documents to buy (select_candidate_indices and
 * prune_states in backend/src/search.rs): one document per author, at most
 * `requested` of them, within the budget. Scores and utilities are reals.
 */
module Selection {
  import opened Wrappers
  import opened Sorting

  const U64_MAX: nat := 0xffff_ffff_ffff_ffff
  const CONSIDERED: nat := 80
  const FRONT_LIMIT: nat := 512

  type U64 = x: nat | x <= U64_MAX

  datatype Candidate = Candidate(author: string, price: U64, score: real, terms: set<string>)

  datatype State = State(spent: nat, utility: real, indices: seq<nat>)

  // ---- utilities ----

  function Jaccard(left: set<string>, right: set<string>): real {
    if |left + right| == 0 then 0.0 else |left * right| as real / |left + right| as real
  }

  function Redundancy(cs: seq<Candidate>, index: nat, chosen: seq<nat>): real
    requires index < |cs| && ValidIndices(cs, chosen)
  {
    if chosen == [] then 0.0
    else
      var earlier := Redundancy(cs, index, chosen[..|chosen| - 1]);
      var last := Jaccard(cs[index].terms, cs[chosen[|chosen| - 1]].terms);
      if earlier < last then last else earlier
  }

  function MarginalUtility(cs: seq<Candidate>, index: nat, chosen: seq<nat>): real
    requires index < |cs| && ValidIndices(cs, chosen)
  {
    cs[index].score - Redundancy(cs, index, chosen) * 0.18
  }

  predicate ValidIndices(cs: seq<Candidate>, indices: seq<nat>) {
    forall i :: 0 <= i < |indices| ==> indices[i] < |cs|
  }

  function TotalPrice(cs: seq<Candidate>, indices: seq<nat>): nat
    requires ValidIndices(cs, indices)
  {
    if indices == [] then 0
    else TotalPrice(cs, indices[..|indices| - 1]) + cs[indices[|indices| - 1]].price
  }

  /** What the bundle is worth when its documents are added in order. */
  function BundleUtility(cs: seq<Candidate>, indices: seq<nat>): real
    requires ValidIndices(cs, indices)
  {
    if indices == [] then 0.0
    else
      var earlier := indices[..|indices| - 1];
      BundleUtility(cs, earlier) + MarginalUtility(cs, indices[|indices| - 1], earlier)
  }

  // ---- the considered candidates ----

  predicate Increasing(s: seq<nat>) {
    forall i, j :: 0 <= i < j < |s| ==> s[i] < s[j]
  }

  ghost predicate DistinctAuthors(cs: seq<Candidate>, s: seq<nat>)
    requires ValidIndices(cs, s)
  {
    forall i, j :: 0 <= i < j < |s| ==> cs[s[i]].author != cs[s[j]].author
  }

  /** The best-ranked candidate of every author among the first `n`, in rank order. */
  function FirstPerAuthor(cs: seq<Candidate>, n: nat): (r: seq<nat>)
    requires n <= |cs|
    ensures forall i :: 0 <= i < |r| ==> r[i] < n
    ensures Increasing(r)
  {
    if n == 0 then []
    else
      var r := FirstPerAuthor(cs, n - 1);
      if AuthorTaken(cs, r, cs[n - 1].author) then r else r + [n - 1]
  }

  predicate AuthorTaken(cs: seq<Candidate>, r: seq<nat>, author: string)
    requires ValidIndices(cs, r)
  {
    exists k :: 0 <= k < |r| && cs[r[k]].author == author
  }

  /** `r` names every author of the first `n` candidates, each once. */
  ghost predicate OnePerAuthor(cs: seq<Candidate>, n: nat, r: seq<nat>)
    requires n <= |cs|
  {
    && ValidIndices(cs, r) && DistinctAuthors(cs, r)
    && forall i :: 0 <= i < n ==> AuthorTaken(cs, r, cs[i].author)
  }

  lemma {:induction false} FirstPerAuthorIsDistinct(cs: seq<Candidate>, n: nat)
    requires n <= |cs|
    ensures OnePerAuthor(cs, n, FirstPerAuthor(cs, n))
  {
    if n > 0 {
      FirstPerAuthorIsDistinct(cs, n - 1);
      NextAuthor(cs, n, FirstPerAuthor(cs, n - 1), FirstPerAuthor(cs, n));
    }
  }

  /** A candidate is kept exactly when nobody ranked above it has the same author. */
  lemma {:induction false} FirstPerAuthorExactly(cs: seq<Candidate>, n: nat, i: nat)
    requires n <= |cs| && i < |cs|
    ensures i in FirstPerAuthor(cs, n) <==> i < n && forall j :: 0 <= j < i ==> cs[j].author != cs[i].author
  {
    hide AuthorTaken;
    if n > 0 {
      FirstPerAuthorExactly(cs, n - 1, i);
      TakenExactly(cs, n - 1, cs[n - 1].author);
    }
  }

  lemma TakenExactly(cs: seq<Candidate>, n: nat, author: string)
    requires n <= |cs|
    ensures AuthorTaken(cs, FirstPerAuthor(cs, n), author) <==> exists j :: 0 <= j < n && cs[j].author == author
  {
    FirstPerAuthorIsDistinct(cs, n);
    var r := FirstPerAuthor(cs, n);
    hide FirstPerAuthor, DistinctAuthors;
    if AuthorTaken(cs, r, author) {
      var k :| 0 <= k < |r| && cs[r[k]].author == author;
      assert r[k] < n;
    }
  }

  lemma NextAuthor(cs: seq<Candidate>, n: nat, earlier: seq<nat>, next: seq<nat>)
    requires 1 <= n <= |cs| && OnePerAuthor(cs, n - 1, earlier)
    requires next == if AuthorTaken(cs, earlier, cs[n - 1].author) then earlier else earlier + [n - 1]
    ensures OnePerAuthor(cs, n, next)
  {
    if !AuthorTaken(cs, earlier, cs[n - 1].author) {
      OneMoreAuthor(cs, earlier, n - 1);
    }
  }

  lemma OneMoreAuthor(cs: seq<Candidate>, earlier: seq<nat>, i: nat)
    requires i < |cs| && ValidIndices(cs, earlier) && DistinctAuthors(cs, earlier)
    requires !AuthorTaken(cs, earlier, cs[i].author)
    ensures DistinctAuthors(cs, earlier + [i]) && AuthorTaken(cs, earlier + [i], cs[i].author)
    ensures forall a :: AuthorTaken(cs, earlier, a) ==> AuthorTaken(cs, earlier + [i], a)
  {
    var r := earlier + [i];
    assert r[|earlier|] == i;
    forall a | AuthorTaken(cs, earlier, a) ensures AuthorTaken(cs, r, a) {
      var k :| 0 <= k < |earlier| && cs[earlier[k]].author == a;
      assert r[k] == earlier[k];
    }
  }

  function Considered(cs: seq<Candidate>): (r: seq<nat>)
    ensures ValidIndices(cs, r) && Increasing(r) && |r| <= CONSIDERED
  {
    var r := FirstPerAuthor(cs, |cs|);
    if |r| <= CONSIDERED then r else r[..CONSIDERED]
  }

  /** The considered ones are the first authors' best documents: no kept candidate outranks them unconsidered. */
  lemma ConsideredAreFirst(cs: seq<Candidate>, i: nat, j: nat)
    requires i < j < |cs| && j in Considered(cs)
    requires forall h :: 0 <= h < i ==> cs[h].author != cs[i].author
    ensures i in Considered(cs)
  {
    FirstPerAuthorExactly(cs, |cs|, i);
    hide FirstPerAuthor;
    var r := FirstPerAuthor(cs, |cs|);
    assert Considered(cs) == r[..|Considered(cs)|];
    PrefixIsClosed(r, |Considered(cs)|, i, j);
  }

  lemma PrefixIsClosed(r: seq<nat>, n: nat, i: nat, j: nat)
    requires Increasing(r) && n <= |r| && i < j && i in r && j in r[..n]
    ensures i in r[..n]
  {
    var a :| 0 <= a < |r| && r[a] == i;
    var b :| 0 <= b < n && r[..n][b] == j;
    assert a < b;
    assert r[..n][a] == i;
  }

  lemma ConsideredIsDistinct(cs: seq<Candidate>)
    ensures DistinctAuthors(cs, Considered(cs))
    ensures cs != [] ==> Considered(cs) != []
  {
    FirstPerAuthorIsDistinct(cs, |cs|);
    var r := FirstPerAuthor(cs, |cs|);
    var considered := Considered(cs);
    forall i, j | 0 <= i < j < |considered| ensures cs[considered[i]].author != cs[considered[j]].author {
      assert considered[i] == r[i] && considered[j] == r[j];
    }
    if cs != [] {
      assert AuthorTaken(cs, r, cs[0].author);
    }
  }

  // ---- pruning to a Pareto front ----

  predicate CheaperFirst(a: State, b: State) {
    a.spent < b.spent || (a.spent == b.spent && a.utility >= b.utility)
  }

  predicate BetterFirst(a: State, b: State) {
    a.utility >= b.utility
  }

  lemma CheaperFirstIsTotal()
    ensures TotalOrder(CheaperFirst)
  {
  }

  /** Keeps a state only when it beats the best utility so far by more than 0.0001. */
  function Improving(s: seq<State>, best: Option<real>): (r: seq<State>)
    ensures forall y :: y in r ==> y in s
    ensures |r| <= |s|
  {
    if s == [] then []
    else if best.None? || s[0].utility > best.value + 0.0001 then [s[0]] + Improving(s[1..], Some(s[0].utility))
    else Improving(s[1..], best)
  }

  function Front(states: seq<State>): (r: seq<State>)
    ensures |r| <= |states|
  {
    Improving(Sorted(states, CheaperFirst), None)
  }

  function Pruned(states: seq<State>): (r: seq<State>)
    ensures |r| <= |states| && |r| <= FRONT_LIMIT
    ensures forall y :: y in r ==> y in states
  {
    var front := Front(states);
    if |front| > FRONT_LIMIT then Sorted(front, BetterFirst)[..FRONT_LIMIT] else front
  }

  /** The retain pass of prune_states over the sorted states. */
  method Retain(sorted: seq<State>) returns (kept: seq<State>)
    ensures kept == Improving(sorted, None)
  {
    kept := [];
    var best: Option<real> := None;
    var i := 0;
    while i < |sorted|
      invariant 0 <= i <= |sorted|
      invariant Improving(sorted, None) == kept + Improving(sorted[i..], best)
    {
      assert sorted[i..][1..] == sorted[i + 1..];
      if best.None? || sorted[i].utility > best.value + 0.0001 {
        best := Some(sorted[i].utility);
        kept := kept + [sorted[i]];
      }
      i := i + 1;
    }
  }

  /** Strictly dearer states are strictly better, so neither coordinate repeats. */
  ghost predicate ParetoFront(front: seq<State>) {
    forall i, j :: 0 <= i < j < |front| ==>
      front[i].spent < front[j].spent && front[i].utility + 0.0001 < front[j].utility
  }

  ghost predicate Dominates(kept: State, dropped: State) {
    kept.spent <= dropped.spent && dropped.utility <= kept.utility + 0.0001
  }

  /** Whatever the front drops, a cheaper kept state is worth as much, up to 0.0001. */
  lemma FrontIsPareto(states: seq<State>)
    ensures ParetoFront(Front(states))
    ensures forall x :: x in states ==> exists y :: y in Front(states) && Dominates(y, x)
  {
    CheaperFirstIsTotal();
    SortedInOrder(states, CheaperFirst);
    var sorted := Sorted(states, CheaperFirst);
    ImprovingIsPareto(sorted, None);
    forall x | x in states ensures exists y :: y in Front(states) && Dominates(y, x) {
      assert x in sorted;
      var i :| 0 <= i < |sorted| && sorted[i] == x;
      ImprovingDominates(sorted, None, i);
    }
  }

  lemma {:induction false} ImprovingIsPareto(s: seq<State>, best: Option<real>)
    requires InOrder(s, CheaperFirst)
    ensures ParetoFront(Improving(s, best))
    ensures best.Some? ==> forall y :: y in Improving(s, best) ==> best.value + 0.0001 < y.utility
  {
    if s != [] {
      if best.None? || s[0].utility > best.value + 0.0001 {
        ImprovingIsPareto(s[1..], Some(s[0].utility));
        var rest := Improving(s[1..], Some(s[0].utility));
        forall j | 0 <= j < |rest| ensures s[0].spent < rest[j].spent && s[0].utility + 0.0001 < rest[j].utility {
          assert rest[j] in rest;
          assert rest[j] in s[1..];
        }
      } else {
        ImprovingIsPareto(s[1..], best);
      }
    }
  }

  lemma {:induction false} ImprovingDominates(s: seq<State>, best: Option<real>, i: nat)
    requires InOrder(s, CheaperFirst) && i < |s|
    ensures (exists y :: y in Improving(s, best) && Dominates(y, s[i]))
      || (best.Some? && s[i].utility <= best.value + 0.0001)
  {
    var keeps := best.None? || s[0].utility > best.value + 0.0001;
    if i > 0 {
      ImprovingDominates(s[1..], if keeps then Some(s[0].utility) else best, i - 1);
    }
    if keeps {
      assert s[0] in Improving(s, best);
      assert forall y :: y in Improving(s[1..], Some(s[0].utility)) ==> y in Improving(s, best);
    }
  }

  // ---- the dynamic program ----

  /** One candidate added to every state that can still afford it. */
  function Extended(cs: seq<Candidate>, states: seq<State>, index: nat, budget: U64): (r: seq<State>)
    requires index < |cs| && Wellformed(cs, states)
    ensures Wellformed(cs, r) && |r| <= |states|
  {
    if states == [] then []
    else
      var rest := Extended(cs, states[1..], index, budget);
      var y := Extension(cs, states[0], index);
      if y.spent <= U64_MAX && y.spent <= budget then [y] + rest else rest
  }

  lemma {:induction false} ExtendedComesFrom(cs: seq<Candidate>, states: seq<State>, index: nat, budget: U64, y: State)
    returns (x: State)
    requires index < |cs| && Wellformed(cs, states) && y in Extended(cs, states, index, budget)
    ensures x in states && y == Extension(cs, x, index) && y.spent <= budget
  {
    if y == Extension(cs, states[0], index) && y.spent <= budget {
      x := states[0];
    } else {
      x := ExtendedComesFrom(cs, states[1..], index, budget, y);
    }
  }

  lemma {:induction false} ExtendedHolds(cs: seq<Candidate>, states: seq<State>, index: nat, budget: U64, x: State)
    requires index < |cs| && Wellformed(cs, states) && x in states && x.spent + cs[index].price <= budget
    ensures Extension(cs, x, index) in Extended(cs, states, index, budget)
  {
    if x != states[0] {
      ExtendedHolds(cs, states[1..], index, budget, x);
    }
  }

  function Extension(cs: seq<Candidate>, x: State, index: nat): State
    requires index < |cs| && ValidIndices(cs, x.indices)
  {
    State(x.spent + cs[index].price, x.utility + MarginalUtility(cs, index, x.indices), x.indices + [index])
  }

  /** A state of `count` documents out of the first `k` considered, accounted for exactly. */
  ghost predicate Accounted(cs: seq<Candidate>, unique: seq<nat>, budget: U64, k: nat, count: nat, x: State)
    requires k <= |unique|
  {
    && Bundle(cs, unique, k, x.indices) && |x.indices| == count
    && x.spent == TotalPrice(cs, x.indices) && x.spent <= budget
    && x.utility == BundleUtility(cs, x.indices)
  }

  /** A choice among the first `k` considered candidates, in rank order. */
  ghost predicate Bundle(cs: seq<Candidate>, unique: seq<nat>, k: nat, s: seq<nat>)
    requires k <= |unique|
  {
    ValidIndices(cs, s) && Increasing(s) && forall i :: 0 <= i < |s| ==> s[i] in unique[..k]
  }

  ghost predicate Wellformed(cs: seq<Candidate>, states: seq<State>) {
    forall x :: x in states ==> ValidIndices(cs, x.indices)
  }

  /** The states with `count` documents after the first `k` considered candidates. */
  function Bucket(cs: seq<Candidate>, unique: seq<nat>, budget: U64, k: nat, count: nat): (r: seq<State>)
    requires k <= |unique| && ValidIndices(cs, unique)
    ensures Wellformed(cs, r)
    decreases k
  {
    if count == 0 then [State(0, 0.0, [])]
    else if k == 0 then []
    else Pruned(Pool(cs, unique, budget, k, count))
  }

  /** The states a bucket holds right before it is pruned. */
  function Pool(cs: seq<Candidate>, unique: seq<nat>, budget: U64, k: nat, count: nat): (r: seq<State>)
    requires 1 <= k <= |unique| && 1 <= count && ValidIndices(cs, unique)
    ensures Wellformed(cs, r)
    decreases k, 0
  {
    Bucket(cs, unique, budget, k - 1, count)
    + Extended(cs, Bucket(cs, unique, budget, k - 1, count - 1), unique[k - 1], budget)
  }

  lemma {:induction false} BucketIsAccounted(cs: seq<Candidate>, unique: seq<nat>, budget: U64, k: nat, count: nat)
    requires k <= |unique| && ValidIndices(cs, unique) && Increasing(unique)
    ensures forall x :: x in Bucket(cs, unique, budget, k, count) ==> Accounted(cs, unique, budget, k, count, x)
    ensures 1 <= k && 1 <= count ==>
      forall x :: x in Pool(cs, unique, budget, k, count) ==> Accounted(cs, unique, budget, k, count, x)
    decreases k
  {
    if 1 <= k && 1 <= count {
      var kept := Bucket(cs, unique, budget, k - 1, count);
      var smaller := Bucket(cs, unique, budget, k - 1, count - 1);
      BucketIsAccounted(cs, unique, budget, k - 1, count);
      BucketIsAccounted(cs, unique, budget, k - 1, count - 1);
      KeptStaysAccounted(cs, unique, budget, k, count, kept);
      AddedIsAccounted(cs, unique, budget, k, count, smaller, Extended(cs, smaller, unique[k - 1], budget));
    }
  }

  lemma KeptStaysAccounted(cs: seq<Candidate>, unique: seq<nat>, budget: U64, k: nat, count: nat, kept: seq<State>)
    requires 1 <= k <= |unique|
    requires forall x :: x in kept ==> Accounted(cs, unique, budget, k - 1, count, x)
    ensures forall x :: x in kept ==> Accounted(cs, unique, budget, k, count, x)
  {
    assert unique[..k] == unique[..k - 1] + [unique[k - 1]];
  }

  lemma AddedIsAccounted(
      cs: seq<Candidate>, unique: seq<nat>, budget: U64, k: nat, count: nat, smaller: seq<State>, added: seq<State>)
    requires 1 <= k <= |unique| && 1 <= count && ValidIndices(cs, unique) && Increasing(unique)
    requires forall x :: x in smaller ==> Accounted(cs, unique, budget, k - 1, count - 1, x)
    requires Wellformed(cs, smaller) && added == Extended(cs, smaller, unique[k - 1], budget)
    ensures forall y :: y in added ==> Accounted(cs, unique, budget, k, count, y)
  {
    forall y | y in added ensures Accounted(cs, unique, budget, k, count, y) {
      var x := ExtendedComesFrom(cs, smaller, unique[k - 1], budget, y);
      ExtensionIsAccounted(cs, unique, budget, k, count, x);
    }
  }

  lemma ExtensionIsAccounted(cs: seq<Candidate>, unique: seq<nat>, budget: U64, k: nat, count: nat, x: State)
    requires 1 <= k <= |unique| && 1 <= count && ValidIndices(cs, unique) && Increasing(unique)
    requires Accounted(cs, unique, budget, k - 1, count - 1, x)
    requires Extension(cs, x, unique[k - 1]).spent <= budget
    ensures Accounted(cs, unique, budget, k, count, Extension(cs, x, unique[k - 1]))
  {
    var y := Extension(cs, x, unique[k - 1]);
    assert y.indices[..|y.indices| - 1] == x.indices;
    forall i | 0 <= i < |x.indices| ensures x.indices[i] < unique[k - 1] && x.indices[i] in unique[..k] {
      assert x.indices[i] in unique[..k - 1];
    }
    assert unique[k - 1] in unique[..k];
  }

  // ---- what pruning may not lose ----

  /** No bucket's Pareto front outgrows the cap during the whole run. */
  ghost predicate FrontsFit(cs: seq<Candidate>, unique: seq<nat>, budget: U64, requested: nat)
    requires ValidIndices(cs, unique) && Increasing(unique)
  {
    forall k, count :: 1 <= k <= |unique| && 1 <= count <= requested ==> FrontFits(cs, unique, budget, k, count)
  }

  ghost predicate FrontFits(cs: seq<Candidate>, unique: seq<nat>, budget: U64, k: nat, count: nat)
    requires 1 <= k <= |unique| && 1 <= count && ValidIndices(cs, unique) && Increasing(unique)
  {
    |Front(Pool(cs, unique, budget, k, count))| <= FRONT_LIMIT
  }

  /** Some state is no dearer than `price` and worth no less than `worth`. */
  ghost predicate HasAsGood(states: seq<State>, price: nat, worth: real) {
    exists x :: x in states && x.spent <= price && worth <= x.utility
  }

  lemma PruningLosesLittle(states: seq<State>, x: State)
    requires x in states && |Front(states)| <= FRONT_LIMIT
    ensures HasAsGood(Pruned(states), x.spent, x.utility - 0.0001)
  {
    hide Front, ParetoFront;
    FrontIsPareto(states);
    var y :| y in Front(states) && Dominates(y, x);
    assert y in Pruned(states);
  }

  /** Even a truncated bucket is empty only when it had nothing to prune. */
  lemma PruningKeepsSomething(states: seq<State>)
    requires |states| > 0
    ensures |Pruned(states)| > 0
  {
    FrontIsPareto(states);
    assert states[0] in states;
  }

  /** Truncation drops the states of the front that are worth least. */
  lemma TruncationKeepsTheBest(states: seq<State>, x: State, y: State)
    requires x in Pruned(states) && y in Front(states) && y !in Pruned(states)
    ensures |Pruned(states)| == FRONT_LIMIT && y.utility <= x.utility
  {
    var front := Front(states);
    BetterFirstIsTotal();
    SortedInOrder(front, BetterFirst);
    var sorted := Sorted(front, BetterFirst);
    assert y in sorted;
    var i :| 0 <= i < |sorted| && sorted[i] == y;
    var j :| 0 <= j < FRONT_LIMIT && sorted[j] == x;
    InPrefix(sorted, i, FRONT_LIMIT);
  }

  lemma InPrefix(s: seq<State>, i: nat, n: nat)
    requires i < |s| && n <= |s|
    ensures i < n ==> s[i] in s[..n]
  {
  }

  lemma BetterFirstIsTotal()
    ensures TotalOrder(BetterFirst)
  {
  }

  // ---- how much better another bundle can be ----

  /** From nothing in common to the same terms, whichever of the two is asked about. */
  lemma JaccardBounds(left: set<string>, right: set<string>)
    ensures 0.0 <= Jaccard(left, right) <= 1.0
    ensures Jaccard(left, right) == 0.0 <==> left * right == {}
    ensures Jaccard(left, right) == 1.0 <==> left == right != {}
    ensures Jaccard(left, right) == Jaccard(right, left)
  {
    var common, all := left * right, left + right;
    assert common == right * left && all == right + left;
    assert common == all <==> left == right;
    SubsetCards(common, all);
    if |all| > 0 {
      QuotientWithin(|common| as real, |all| as real);
    }
  }

  lemma {:induction false} SubsetCards(a: set<string>, b: set<string>)
    requires a <= b
    ensures |a| <= |b| && (|a| == |b| <==> a == b)
  {
    if a != {} {
      var x :| x in a;
      SubsetCards(a - {x}, b - {x});
    }
  }

  lemma QuotientWithin(a: real, b: real)
    requires 0.0 <= a <= b && 0.0 < b
    ensures 0.0 <= a / b <= 1.0 && (a / b == 0.0 <==> a == 0.0) && (a / b == 1.0 <==> a == b)
  {
  }

  /** The redundancy is the overlap with the most similar chosen document. */
  lemma {:induction false} RedundancyIsLargest(cs: seq<Candidate>, index: nat, chosen: seq<nat>)
    requires index < |cs| && ValidIndices(cs, chosen)
    ensures forall i :: 0 <= i < |chosen| ==>
      Jaccard(cs[index].terms, cs[chosen[i]].terms) <= Redundancy(cs, index, chosen)
    ensures Redundancy(cs, index, chosen) == 0.0
      || exists i :: 0 <= i < |chosen| && Redundancy(cs, index, chosen) == Jaccard(cs[index].terms, cs[chosen[i]].terms)
  {
    hide Jaccard;
    if chosen != [] {
      var init := chosen[..|chosen| - 1];
      RedundancyIsLargest(cs, index, init);
      assert forall i :: 0 <= i < |init| ==> init[i] == chosen[i];
    }
  }

  /** How much more one earlier considered candidate can take off a later one's score than another. */
  ghost predicate OverlapVaries(cs: seq<Candidate>, unique: seq<nat>, most: real)
    requires ValidIndices(cs, unique)
  {
    && 0.0 <= most
    && forall i, h, j :: 0 <= i < j < |unique| && 0 <= h < j ==>
         (Jaccard(cs[unique[j]].terms, cs[unique[i]].terms) - Jaccard(cs[unique[j]].terms, cs[unique[h]].terms)) * 0.18
           <= most
  }

  /** Every candidate overlaps with all those ranked above it alike. */
  ghost predicate OverlapsAlike(cs: seq<Candidate>, unique: seq<nat>)
    requires ValidIndices(cs, unique)
  {
    forall i, h, j :: 0 <= i < j < |unique| && 0 <= h < j ==>
      Jaccard(cs[unique[j]].terms, cs[unique[i]].terms) == Jaccard(cs[unique[j]].terms, cs[unique[h]].terms)
  }

  /** It varies by 0.18 at most, and not at all exactly where every candidate overlaps alike. */
  lemma OverlapVariesLittle(cs: seq<Candidate>, unique: seq<nat>)
    requires ValidIndices(cs, unique)
    ensures OverlapVaries(cs, unique, 0.18)
    ensures OverlapsAlike(cs, unique) <==> OverlapVaries(cs, unique, 0.0)
  {
    forall i, j | 0 <= i < j < |unique| ensures 0.0 <= Jaccard(cs[unique[j]].terms, cs[unique[i]].terms) <= 1.0 {
      JaccardBounds(cs[unique[j]].terms, cs[unique[i]].terms);
    }
    hide Jaccard;
  }

  /** Next to some earlier considered ones a candidate adds what it adds next to others, but for that variation. */
  lemma MarginalsAlike(
      cs: seq<Candidate>, unique: seq<nat>, k: nat, most: real, s: seq<nat>, t: seq<nat>)
    requires 1 <= k <= |unique| && ValidIndices(cs, unique) && OverlapVaries(cs, unique, most)
    requires ValidIndices(cs, s) && s != [] && forall i :: 0 <= i < |s| ==> s[i] in unique[..k - 1]
    requires ValidIndices(cs, t) && t != [] && forall i :: 0 <= i < |t| ==> t[i] in unique[..k - 1]
    ensures MarginalUtility(cs, unique[k - 1], s) <= MarginalUtility(cs, unique[k - 1], t) + most
  {
    hide Jaccard, Redundancy;
    var index := unique[k - 1];
    RedundancyIsLargest(cs, index, s);
    RedundancyIsLargest(cs, index, t);
    JaccardBounds(cs[index].terms, cs[s[0]].terms);
    var h :| 0 <= h < k - 1 && unique[..k - 1][h] == s[0];
    if Redundancy(cs, index, t) != 0.0 {
      var n :| 0 <= n < |t| && Redundancy(cs, index, t) == Jaccard(cs[index].terms, cs[t[n]].terms);
      var i :| 0 <= i < k - 1 && unique[..k - 1][i] == t[n];
    }
  }

  /** The tolerance of every pruning, and the variation of overlap for every document after the first. */
  function Loss(k: nat, n: nat, most: real): real {
    0.0001 * k as real + if n <= 1 then 0.0 else most * (n - 1) as real
  }

  lemma LossGrows(k: nat, n: nat, most: real)
    requires 1 <= k && 0.0 <= most
    ensures Loss(k, n, most) == Loss(k - 1, n, most) + 0.0001
    ensures n >= 2 ==> Loss(k, n, most) == Loss(k - 1, n - 1, most) + most + 0.0001
    ensures n == 1 ==> Loss(k, n, most) == Loss(k - 1, n - 1, most) + 0.0001
    ensures 0.0 <= Loss(k, n, most)
  {
    if n >= 2 {
      assert most * (n - 1) as real == most * (n - 2) as real + most;
      assert 0.0 <= most * (n - 1) as real;
    }
  }

  /** Without truncation every affordable bundle is matched by an equally large state, no dearer and hardly worse. */
  lemma {:induction false} BucketCoversBundles(
      cs: seq<Candidate>, unique: seq<nat>, budget: U64, k: nat, requested: nat, s: seq<nat>, most: real)
    requires k <= |unique| && ValidIndices(cs, unique) && Increasing(unique) && FrontsFit(cs, unique, budget, requested)
    requires Bundle(cs, unique, k, s) && |s| <= requested && TotalPrice(cs, s) <= budget
    requires OverlapVaries(cs, unique, most)
    ensures HasAsGood(Bucket(cs, unique, budget, k, |s|), TotalPrice(cs, s), BundleUtility(cs, s) - Loss(k, |s|, most))
    decreases k
  {
    hide OverlapVaries, Loss, BundleUtility, TotalPrice, Increasing, Front;
    var bucket := Bucket(cs, unique, budget, k, |s|);
    if s == [] {
      assert bucket[0] in bucket;
      NothingIsWorthNothing(cs, k, most);
    } else {
      assert s[0] in unique[..k];
      var pool := Pool(cs, unique, budget, k, |s|);
      var x := PoolCovers(cs, unique, budget, k, requested, s, most);
      assert FrontFits(cs, unique, budget, k, |s|);
      PruningLosesLittle(pool, x);
    }
  }

  lemma NothingIsWorthNothing(cs: seq<Candidate>, k: nat, most: real)
    ensures TotalPrice(cs, []) == 0 && BundleUtility(cs, []) == 0.0 && 0.0 <= Loss(k, 0, most)
  {
  }

  /** The state that answers a bundle is already in the pool, either kept or just extended. */
  lemma {:induction false} PoolCovers(
      cs: seq<Candidate>, unique: seq<nat>, budget: U64, k: nat, requested: nat, s: seq<nat>, most: real)
    returns (x: State)
    requires 1 <= k <= |unique| && ValidIndices(cs, unique)
    requires Increasing(unique) && FrontsFit(cs, unique, budget, requested)
    requires Bundle(cs, unique, k, s) && 1 <= |s| <= requested && TotalPrice(cs, s) <= budget
    requires OverlapVaries(cs, unique, most)
    ensures x in Pool(cs, unique, budget, k, |s|) && x.spent <= TotalPrice(cs, s)
    ensures BundleUtility(cs, s) - Loss(k, |s|, most) <= x.utility - 0.0001
    decreases k, 0
  {
    hide Bucket, FrontsFit, Increasing, Extended, Loss, OverlapVaries, BundleUtility, TotalPrice;
    BundleWithoutLast(cs, unique, k, s);
    LossStaysNonnegative(cs, unique, most);
    LossGrows(k, |s|, most);
    if s[|s| - 1] == unique[k - 1] {
      var init := s[..|s| - 1];
      LastAdded(cs, s);
      BucketCoversBundles(cs, unique, budget, k - 1, requested, init, most);
      var smaller := Bucket(cs, unique, budget, k - 1, |s| - 1);
      var y :| y in smaller && y.spent <= TotalPrice(cs, init)
        && BundleUtility(cs, init) - Loss(k - 1, |s| - 1, most) <= y.utility;
      x := Extension(cs, y, unique[k - 1]);
      ExtendedHolds(cs, smaller, unique[k - 1], budget, y);
      ExtensionKeepsUp(cs, unique, budget, k, |s|, most, init, y);
    } else {
      BucketCoversBundles(cs, unique, budget, k - 1, requested, s, most);
      x :| x in Bucket(cs, unique, budget, k - 1, |s|) && x.spent <= TotalPrice(cs, s)
        && BundleUtility(cs, s) - Loss(k - 1, |s|, most) <= x.utility;
    }
  }

  lemma LossStaysNonnegative(cs: seq<Candidate>, unique: seq<nat>, most: real)
    requires ValidIndices(cs, unique) && OverlapVaries(cs, unique, most)
    ensures 0.0 <= most
  {
  }

  lemma LastAdded(cs: seq<Candidate>, s: seq<nat>)
    requires ValidIndices(cs, s) && s != []
    ensures var init, last := s[..|s| - 1], s[|s| - 1];
      && TotalPrice(cs, s) == TotalPrice(cs, init) + cs[last].price
      && BundleUtility(cs, s) == BundleUtility(cs, init) + MarginalUtility(cs, last, init)
  {
  }

  /** The same candidate adds to a state of the same size what it adds to the bundle, up to that variation. */
  lemma ExtensionKeepsUp(
      cs: seq<Candidate>, unique: seq<nat>, budget: U64, k: nat, n: nat, most: real, init: seq<nat>, y: State)
    requires 1 <= k <= |unique| && 1 <= n == |init| + 1 && ValidIndices(cs, unique) && Increasing(unique)
    requires OverlapVaries(cs, unique, most) && Bundle(cs, unique, k - 1, init)
    requires y in Bucket(cs, unique, budget, k - 1, n - 1)
    ensures MarginalUtility(cs, unique[k - 1], init)
      <= MarginalUtility(cs, unique[k - 1], y.indices) + if n >= 2 then most else 0.0
  {
    hide Bucket, OverlapVaries, Increasing, MarginalUtility;
    BucketIsAccounted(cs, unique, budget, k - 1, n - 1);
    assert Accounted(cs, unique, budget, k - 1, n - 1, y);
    if n >= 2 {
      MarginalsAlike(cs, unique, k, most, init, y.indices);
    } else {
      assert y.indices == init;
    }
  }

  /** A bundle holds the k-th considered candidate at its end or not at all. */
  lemma BundleWithoutLast(cs: seq<Candidate>, unique: seq<nat>, k: nat, s: seq<nat>)
    requires 1 <= k <= |unique| && Increasing(unique) && Bundle(cs, unique, k, s) && s != []
    ensures if s[|s| - 1] == unique[k - 1] then Bundle(cs, unique, k - 1, s[..|s| - 1])
      else Bundle(cs, unique, k - 1, s)
  {
    var shorter := if s[|s| - 1] == unique[k - 1] then s[..|s| - 1] else s;
    var m :| 0 <= m < k && unique[m] == s[|s| - 1];
    forall i | 0 <= i < |shorter| ensures shorter[i] in unique[..k - 1] {
      assert s[i] in unique[..k];
      var j :| 0 <= j < k && unique[j] == s[i];
      assert s[i] <= s[|s| - 1] <= unique[k - 1];
      assert j != k - 1;
      assert unique[..k - 1][j] == s[i];
    }
  }

  // ---- a condition on the input under which no front can overflow ----

  function Choose(n: nat, c: nat): nat {
    if c == 0 then 1 else if n == 0 then 0 else Choose(n - 1, c) + Choose(n - 1, c - 1)
  }

  lemma PoolIsSmall(cs: seq<Candidate>, unique: seq<nat>, budget: U64, k: nat, count: nat, same: nat, smaller: nat)
    requires 1 <= k <= |unique| && 1 <= count && ValidIndices(cs, unique)
    requires |Bucket(cs, unique, budget, k - 1, count)| <= same
    requires |Bucket(cs, unique, budget, k - 1, count - 1)| <= smaller
    ensures |Pool(cs, unique, budget, k, count)| <= same + smaller
  {
    var added := Extended(cs, Bucket(cs, unique, budget, k - 1, count - 1), unique[k - 1], budget);
    assert Pool(cs, unique, budget, k, count) == Bucket(cs, unique, budget, k - 1, count) + added;
  }

  lemma BucketShrinksPool(cs: seq<Candidate>, unique: seq<nat>, budget: U64, k: nat, count: nat)
    requires 1 <= k <= |unique| && 1 <= count && ValidIndices(cs, unique)
    ensures |Bucket(cs, unique, budget, k, count)| <= |Pool(cs, unique, budget, k, count)|
  {
  }

  lemma {:induction false} BucketIsSmall(cs: seq<Candidate>, unique: seq<nat>, budget: U64, k: nat, count: nat)
    requires k <= |unique| && ValidIndices(cs, unique)
    ensures |Bucket(cs, unique, budget, k, count)| <= Choose(k, count)
    decreases k
  {
    hide Pool, Pruned, Extended;
    if 1 <= k && 1 <= count {
      BucketIsSmall(cs, unique, budget, k - 1, count);
      BucketIsSmall(cs, unique, budget, k - 1, count - 1);
      PoolIsSmall(cs, unique, budget, k, count, Choose(k - 1, count), Choose(k - 1, count - 1));
      BucketShrinksPool(cs, unique, budget, k, count);
    }
  }

  lemma ChooseSplits(n: nat, c: nat)
    requires 1 <= n && 1 <= c
    ensures Choose(n, c) == Choose(n - 1, c) + Choose(n - 1, c - 1)
  {
  }

  lemma {:induction false} ChooseGrows(n: nat, m: nat, c: nat)
    requires n <= m
    ensures Choose(n, c) <= Choose(m, c)
    decreases m, c
  {
    if c > 0 && n < m {
      ChooseGrows(n, m - 1, c);
    }
  }

  /** As many bundles of any size as the cap at most: then nothing is ever truncated. */
  lemma FewBundlesFit(cs: seq<Candidate>, unique: seq<nat>, budget: U64, requested: nat)
    requires ValidIndices(cs, unique) && Increasing(unique)
    requires forall count :: 1 <= count <= requested ==> Choose(|unique|, count) <= FRONT_LIMIT
    ensures FrontsFit(cs, unique, budget, requested)
  {
    hide Bucket, Pool, Front, Choose, Increasing, ValidIndices;
    forall k, count | 1 <= k <= |unique| && 1 <= count <= requested ensures FrontFits(cs, unique, budget, k, count) {
      ChooseSplits(k, count);
      BucketIsSmall(cs, unique, budget, k - 1, count);
      BucketIsSmall(cs, unique, budget, k - 1, count - 1);
      PoolIsSmall(cs, unique, budget, k, count, Choose(k - 1, count), Choose(k - 1, count - 1));
      ChooseGrows(k, |unique|, count);
    }
  }

  /** So does a budget below the cap: a front never repeats a price. */
  lemma SmallBudgetFits(cs: seq<Candidate>, unique: seq<nat>, budget: U64, requested: nat)
    requires ValidIndices(cs, unique) && Increasing(unique) && budget < FRONT_LIMIT
    ensures FrontsFit(cs, unique, budget, requested)
  {
    forall k, count | 1 <= k <= |unique| && 1 <= count <= requested ensures FrontFits(cs, unique, budget, k, count) {
      var pool := Pool(cs, unique, budget, k, count);
      var front := Front(pool);
      FrontIsPareto(pool);
      BucketIsAccounted(cs, unique, budget, k, count);
      forall i | 0 <= i < |front| ensures front[i].spent <= budget {
        assert front[i] in front;
        assert front[i] in Sorted(pool, CheaperFirst);
      }
      PricesClimb(front, |front|);
    }
  }

  lemma {:induction false} PricesClimb(front: seq<State>, n: nat)
    requires ParetoFront(front) && n <= |front|
    ensures 0 < n ==> n - 1 <= front[n - 1].spent
  {
    if n > 1 {
      PricesClimb(front, n - 1);
    }
  }

  // ---- the selection itself ----

  /** None is worth more, and none after it as much. */
  predicate BestAt(states: seq<State>, i: nat) {
    && i < |states|
    && (forall j :: 0 <= j < |states| ==> states[j].utility <= states[i].utility)
    && forall j :: i < j < |states| ==> states[j].utility < states[i].utility
  }

  /** The last of the best states, as max_by picks it. */
  function BestOf(states: seq<State>): (r: State)
    requires states != []
    ensures exists i :: 0 <= i < |states| && states[i] == r && BestAt(states, i)
  {
    if |states| == 1 then assert BestAt(states, 0); states[0]
    else
      var r := BestOf(states[..|states| - 1]);
      assert states == states[..|states| - 1] + [states[|states| - 1]];
      assert forall i: nat | BestAt(states[..|states| - 1], i) ::
        states[|states| - 1].utility < r.utility && states[i] == r ==> BestAt(states, i);
      assert r.utility <= states[|states| - 1].utility ==> BestAt(states, |states| - 1);
      if r.utility <= states[|states| - 1].utility then states[|states| - 1] else r
  }

  ghost predicate TableAt(
      cs: seq<Candidate>, unique: seq<nat>, budget: U64, k: nat, buckets: seq<seq<State>>, from: nat, to: nat)
    requires k <= |unique| && ValidIndices(cs, unique) && from <= to <= |buckets|
  {
    forall c :: from <= c < to ==> buckets[c] == Bucket(cs, unique, budget, k, c)
  }

  /** The in-place table update for one more candidate: counts go down, so a bucket is read before it is rewritten. */
  method AddCandidate(cs: seq<Candidate>, unique: seq<nat>, budget: U64, k: nat, buckets: array<seq<State>>)
    requires k < |unique| && ValidIndices(cs, unique) && buckets.Length >= 1
    requires TableAt(cs, unique, budget, k, buckets[..], 0, buckets.Length)
    modifies buckets
    ensures TableAt(cs, unique, budget, k + 1, buckets[..], 0, buckets.Length)
  {
    var count := buckets.Length - 1;
    while count > 0
      invariant 0 <= count < buckets.Length
      invariant TableAt(cs, unique, budget, k, buckets[..], 0, count + 1)
      invariant TableAt(cs, unique, budget, k + 1, buckets[..], count + 1, buckets.Length)
    {
      assert buckets[..][count] == buckets[count] && buckets[..][count - 1] == buckets[count - 1];
      buckets[count] := NextBucket(cs, unique, budget, k, count, buckets[count], buckets[count - 1]);
      count := count - 1;
    }
    assert Bucket(cs, unique, budget, k, 0) == Bucket(cs, unique, budget, k + 1, 0);
  }

  method NextBucket(
      cs: seq<Candidate>, unique: seq<nat>, budget: U64, k: nat, count: nat, same: seq<State>, smaller: seq<State>)
    returns (next: seq<State>)
    requires k < |unique| && 1 <= count && ValidIndices(cs, unique)
    requires same == Bucket(cs, unique, budget, k, count) && smaller == Bucket(cs, unique, budget, k, count - 1)
    ensures next == Bucket(cs, unique, budget, k + 1, count)
  {
    var additions := Extended(cs, smaller, unique[k], budget);
    assert same + additions == Pool(cs, unique, budget, k + 1, count);
    next := Prune(same + additions);
  }

  method Prune(states: seq<State>) returns (kept: seq<State>)
    ensures kept == Pruned(states)
  {
    kept := Retain(Sorted(states, CheaperFirst));
    if |kept| > FRONT_LIMIT {
      kept := Sorted(kept, BetterFirst)[..FRONT_LIMIT];
    }
  }

  /** A bundle the buyer can be offered: independent authors, within the count and the budget. */
  ghost predicate Offerable(cs: seq<Candidate>, requested: nat, budget: nat, chosen: seq<nat>) {
    && Bundle(cs, Considered(cs), |Considered(cs)|, chosen)
    && |chosen| <= requested && TotalPrice(cs, chosen) <= budget && DistinctAuthors(cs, chosen)
  }

  lemma BundlesHaveDistinctAuthors(cs: seq<Candidate>, s: seq<nat>)
    requires Bundle(cs, Considered(cs), |Considered(cs)|, s)
    ensures DistinctAuthors(cs, s)
  {
    ConsideredIsDistinct(cs);
    var unique := Considered(cs);
    forall i, j | 0 <= i < j < |s| ensures cs[s[i]].author != cs[s[j]].author {
      assert s[i] in unique && s[j] in unique;
      var a :| 0 <= a < |unique| && unique[a] == s[i];
      var b :| 0 <= b < |unique| && unique[b] == s[j];
    }
  }

  /** The finished table, one bucket per number of documents. */
  method FillTable(cs: seq<Candidate>, unique: seq<nat>, requested: nat, budget: U64) returns (table: seq<seq<State>>)
    requires ValidIndices(cs, unique)
    ensures |table| == requested + 1 && TableAt(cs, unique, budget, |unique|, table, 0, requested + 1)
  {
    var buckets := new seq<State>[requested + 1](i => if i == 0 then [State(0, 0.0, [])] else []);
    var k := 0;
    while k < |unique|
      invariant 0 <= k <= |unique|
      invariant TableAt(cs, unique, budget, k, buckets[..], 0, buckets.Length)
    {
      AddCandidate(cs, unique, budget, k, buckets);
      k := k + 1;
    }
    table := buckets[..];
  }

  /** With a budget: the dynamic program, then the fullest bucket's best state. */
  method SelectWithinBudget(cs: seq<Candidate>, requested: nat, budget: U64) returns (chosen: seq<nat>)
    ensures Offerable(cs, requested, budget, chosen)
    ensures FrontsFit(cs, Considered(cs), budget, requested) ==>
      forall s :: Offerable(cs, requested, budget, s) ==> |s| <= |chosen|
    ensures chosen == [] <==> requested == 0 || forall i :: i in Considered(cs) ==> cs[i].price > budget
    ensures BestOfItsSize(cs, budget, chosen)
    ensures FrontsFit(cs, Considered(cs), budget, requested) ==> NearlyBest(cs, requested, budget, chosen)
  {
    var unique := Considered(cs);
    var table := FillTable(cs, unique, requested, budget);
    assert table[0] == [State(0, 0.0, [])];
    var count := Fullest(table);
    var best := BestOf(table[count]);
    FullestIsRight(cs, requested, budget, count, table, best);
    chosen := best.indices;
    NoneIsMuchBetter(cs, requested, budget, chosen);
  }

  /** The bundle of the last of the best states with as many documents. */
  ghost predicate BestOfItsSize(cs: seq<Candidate>, budget: U64, chosen: seq<nat>)
    requires ValidIndices(cs, chosen)
  {
    var states := Bucket(cs, Considered(cs), budget, |Considered(cs)|, |chosen|);
    exists i :: 0 <= i < |states| && BestAt(states, i) && states[i].indices == chosen
      && states[i].utility == BundleUtility(cs, chosen)
  }

  /** No bundle of the same size that could be offered is worth more than the tolerances allow. */
  ghost predicate NearlyBest(cs: seq<Candidate>, requested: nat, budget: nat, chosen: seq<nat>)
    requires ValidIndices(cs, chosen)
  {
    forall s, most | Offerable(cs, requested, budget, s) && OverlapVaries(cs, Considered(cs), most) ::
      |s| == |chosen| ==>
        BundleUtility(cs, s) <= BundleUtility(cs, chosen) + Loss(|Considered(cs)|, |chosen|, most)
  }

  lemma NoneIsMuchBetter(cs: seq<Candidate>, requested: nat, budget: U64, chosen: seq<nat>)
    requires ValidIndices(cs, chosen) && BestOfItsSize(cs, budget, chosen)
    ensures FrontsFit(cs, Considered(cs), budget, requested) ==> NearlyBest(cs, requested, budget, chosen)
  {
    hide Considered, Bucket, Increasing, BundleUtility, DistinctAuthors, OverlapVaries, Loss;
    var unique := Considered(cs);
    if FrontsFit(cs, unique, budget, requested) {
      forall s, most | Offerable(cs, requested, budget, s) && OverlapVaries(cs, unique, most) && |s| == |chosen|
        ensures BundleUtility(cs, s) <= BundleUtility(cs, chosen) + Loss(|unique|, |chosen|, most)
      {
        BucketCoversBundles(cs, unique, budget, |unique|, requested, s, most);
      }
    }
  }

  /**
   * Up to the pruning tolerance the bundle is the best of its size when one
   * document is asked for or every candidate overlaps alike with those ranked
   * above it, as where no term is shared; otherwise every document after the
   * first costs 0.18 at most.
   */
  lemma BestWhereOverlapsAlike(cs: seq<Candidate>, requested: nat, budget: nat, chosen: seq<nat>, s: seq<nat>)
    requires ValidIndices(cs, chosen) && NearlyBest(cs, requested, budget, chosen)
    requires Offerable(cs, requested, budget, s) && |s| == |chosen|
    ensures requested == 1 || NoSharedTerms(cs, Considered(cs)) || OverlapsAlike(cs, Considered(cs)) ==>
      BundleUtility(cs, s) <= BundleUtility(cs, chosen) + 0.0001 * |Considered(cs)| as real
    ensures chosen != [] ==>
      BundleUtility(cs, s)
        <= BundleUtility(cs, chosen) + 0.0001 * |Considered(cs)| as real + 0.18 * (|chosen| - 1) as real
  {
    hide *;
    OverlapVariesLittle(cs, Considered(cs));
    NothingSharedIsAlike(cs, Considered(cs));
    OfferableIsRequested(cs, requested, budget, s);
    NearlyBestAt(cs, requested, budget, chosen, s, 0.18);
    LossValues(|Considered(cs)|, |chosen|);
    if OverlapsAlike(cs, Considered(cs)) {
      NearlyBestAt(cs, requested, budget, chosen, s, 0.0);
    }
  }

  lemma NothingSharedIsAlike(cs: seq<Candidate>, unique: seq<nat>)
    requires ValidIndices(cs, unique)
    ensures NoSharedTerms(cs, unique) ==> OverlapsAlike(cs, unique)
  {
    if NoSharedTerms(cs, unique) {
      forall i, j | 0 <= i < j < |unique| ensures Jaccard(cs[unique[j]].terms, cs[unique[i]].terms) == 0.0 {
        JaccardBounds(cs[unique[j]].terms, cs[unique[i]].terms);
      }
    }
    hide Jaccard;
  }

  lemma NearlyBestAt(
      cs: seq<Candidate>, requested: nat, budget: nat, chosen: seq<nat>, s: seq<nat>, most: real)
    requires ValidIndices(cs, chosen) && NearlyBest(cs, requested, budget, chosen)
    requires Offerable(cs, requested, budget, s) && |s| == |chosen| && OverlapVaries(cs, Considered(cs), most)
    ensures BundleUtility(cs, s) <= BundleUtility(cs, chosen) + Loss(|Considered(cs)|, |chosen|, most)
  {
    hide Considered, BundleUtility, OverlapVaries, Offerable, Loss;
  }

  lemma LossValues(k: nat, n: nat)
    ensures n <= 1 ==> Loss(k, n, 0.18) == 0.0001 * k as real
    ensures Loss(k, n, 0.0) == 0.0001 * k as real
    ensures n > 0 ==> Loss(k, n, 0.18) == 0.0001 * k as real + 0.18 * (n - 1) as real
  {
  }

  ghost predicate NoSharedTerms(cs: seq<Candidate>, unique: seq<nat>)
    requires ValidIndices(cs, unique)
  {
    forall i, j :: 0 <= i < j < |unique| ==> cs[unique[j]].terms * cs[unique[i]].terms == {}
  }

  lemma OfferableIsRequested(cs: seq<Candidate>, requested: nat, budget: nat, s: seq<nat>)
    ensures Offerable(cs, requested, budget, s) ==> |s| <= requested
  {
  }

  /** Three documents at one price; the first is worth a little more than the second. */
  function Misleading(a: set<string>, b: set<string>, c: set<string>): (cs: seq<Candidate>) {
    [Candidate("a", 1, 1.001, a), Candidate("b", 1, 1.0, b), Candidate("c", 1, 3.0, c)]
  }

  /**
   * Where a candidate overlaps more with one ranked above it than with another,
   * the bundle need not be the best: of two documents at one price only the
   * better survives, though it may be the worse company for a third. What is
   * lost here is what the overlap varies by, less 0.001.
   */
  lemma UnlikeOverlapMisleads(a: set<string>, b: set<string>, c: set<string>, chosen: seq<nat>)
    requires var cs := Misleading(a, b, c); ValidIndices(cs, chosen) && BestOfItsSize(cs, 10, chosen)
    requires |chosen| == 2
    ensures var cs := Misleading(a, b, c);
      && FrontsFit(cs, Considered(cs), 10, 2) && Offerable(cs, 2, 10, [1, 2])
      && BundleUtility(cs, [1, 2]) >= BundleUtility(cs, chosen) + 0.18 * (Jaccard(c, a) - Jaccard(c, b)) - 0.001
  {
    hide Misleading, Considered, BundleUtility, Offerable, BestOfItsSize, FrontsFit, Bucket, Jaccard;
    var cs := Misleading(a, b, c);
    MisleadingAre(a, b, c);
    SmallBudgetFits(cs, [0, 1, 2], 10, 2);
    PairOffered(a, b, c);
    MisleadingBundles(a, b, c);
    PairsFound(a, b, c, chosen);
  }

  lemma MisleadingAre(a: set<string>, b: set<string>, c: set<string>)
    ensures var cs := Misleading(a, b, c);
      |cs| == 3 && Considered(cs) == [0, 1, 2] && ValidIndices(cs, [0, 1, 2]) && Increasing([0, 1, 2])
  {
    AllDifferent(Misleading(a, b, c));
    hide FirstPerAuthor;
  }

  lemma AllDifferent(cs: seq<Candidate>)
    requires |cs| == 3 && forall i, j :: 0 <= i < j < 3 ==> cs[i].author != cs[j].author
    ensures FirstPerAuthor(cs, 3) == [0, 1, 2]
  {
    hide AuthorTaken;
    NoneTaken(cs, []);
    assert FirstPerAuthor(cs, 1) == [0];
    NoneTaken(cs, [0]);
    assert FirstPerAuthor(cs, 2) == [0, 1];
    NoneTaken(cs, [0, 1]);
  }

  lemma NoneTaken(cs: seq<Candidate>, r: seq<nat>)
    requires |r| < |cs| && forall i :: 0 <= i < |r| ==> r[i] < |r|
    requires forall i, j :: 0 <= i < j < |cs| ==> cs[i].author != cs[j].author
    ensures !AuthorTaken(cs, r, cs[|r|].author)
  {
  }

  lemma MisleadingMargins(a: set<string>, b: set<string>, c: set<string>)
    ensures var cs := Misleading(a, b, c);
      && MarginalUtility(cs, 0, []) == 1.001 && MarginalUtility(cs, 1, []) == 1.0
      && MarginalUtility(cs, 1, [0]) <= 1.0
      && MarginalUtility(cs, 2, [0]) == 3.0 - 0.18 * Jaccard(c, a) && 0.0 <= Jaccard(c, a) <= 1.0
      && MarginalUtility(cs, 2, [1]) == 3.0 - 0.18 * Jaccard(c, b)
  {
    var cs := Misleading(a, b, c);
    JaccardBounds(c, a);
    JaccardBounds(c, b);
    JaccardBounds(b, a);
    hide Jaccard;
    RedundancyOfOne(cs, 1, 0);
    RedundancyOfOne(cs, 2, 0);
    RedundancyOfOne(cs, 2, 1);
    hide Redundancy;
    NothingRedundant(cs, 0);
    NothingRedundant(cs, 1);
  }

  lemma RedundancyOfOne(cs: seq<Candidate>, index: nat, other: nat)
    requires index < |cs| && other < |cs|
    ensures Redundancy(cs, index, [other]) == Jaccard(cs[index].terms, cs[other].terms)
  {
    assert [other][..0] == [];
    JaccardBounds(cs[index].terms, cs[other].terms);
    hide Jaccard;
  }

  lemma NothingRedundant(cs: seq<Candidate>, index: nat)
    requires index < |cs|
    ensures Redundancy(cs, index, []) == 0.0
  {
  }

  lemma MisleadingBundles(a: set<string>, b: set<string>, c: set<string>)
    ensures var cs := Misleading(a, b, c);
      && BundleUtility(cs, [0]) == 1.001 && TotalPrice(cs, [0]) == 1
      && BundleUtility(cs, [1]) == 1.0 && TotalPrice(cs, [1]) == 1
      && BundleUtility(cs, [0, 1]) <= 2.001
      && BundleUtility(cs, [1, 2]) == 4.0 - 0.18 * Jaccard(c, b) && TotalPrice(cs, [1, 2]) == 2
  {
    MisleadingMargins(a, b, c);
    hide MarginalUtility, Jaccard;
    assert [0][..0] == [] && [1][..0] == [];
    assert [0, 1][..1] == [0] && [1, 2][..1] == [1];
  }

  lemma PairOffered(a: set<string>, b: set<string>, c: set<string>)
    ensures Offerable(Misleading(a, b, c), 2, 10, [1, 2])
  {
    MisleadingAre(a, b, c);
    MisleadingBundles(a, b, c);
    hide Considered, BundleUtility, TotalPrice, Jaccard;
    assert [0, 1, 2][..3] == [0, 1, 2];
  }

  /** The only bundles of their size among the first two. */
  lemma FewAmongTwo(cs: seq<Candidate>, s: seq<nat>)
    requires Bundle(cs, [0, 1, 2], 2, s)
    ensures |s| == 1 ==> s == [0] || s == [1]
    ensures |s| == 2 ==> s == [0, 1]
  {
    assert [0, 1, 2][..2] == [0, 1];
    assert forall i :: 0 <= i < |s| ==> s[i] in [0, 1];
    if |s| == 1 {
      assert s == [s[0]];
    } else if |s| == 2 {
      assert s == [s[0], s[1]];
    }
  }

  lemma SinglesAmongTwo(a: set<string>, b: set<string>, c: set<string>, x: State)
    requires ValidIndices(Misleading(a, b, c), [0, 1, 2]) && x in Bucket(Misleading(a, b, c), [0, 1, 2], 10, 2, 1)
    ensures x == State(1, 1.001, [0]) || x == State(1, 1.0, [1])
  {
    var cs := Misleading(a, b, c);
    MisleadingAre(a, b, c);
    MisleadingBundles(a, b, c);
    hide Misleading, BundleUtility, TotalPrice, Bucket, Considered, Increasing, Jaccard;
    BucketIsAccounted(cs, [0, 1, 2], 10, 2, 1);
    assert Accounted(cs, [0, 1, 2], 10, 2, 1, x);
    FewAmongTwo(cs, x.indices);
  }

  lemma FirstIsBundle(cs: seq<Candidate>)
    requires |cs| == 3
    ensures Bundle(cs, [0, 1, 2], 2, [0])
  {
    assert [0, 1, 2][..2] == [0, 1];
  }

  lemma FirstSurvives(a: set<string>, b: set<string>, c: set<string>)
    requires ValidIndices(Misleading(a, b, c), [0, 1, 2])
    ensures State(1, 1.001, [0]) in Bucket(Misleading(a, b, c), [0, 1, 2], 10, 2, 1)
  {
    hide Misleading, BundleUtility, TotalPrice, Bucket, Considered, OverlapVaries, FrontsFit, Bundle, Pool;
    hide Increasing, ValidIndices, Jaccard;
    var cs := Misleading(a, b, c);
    var unique := [0, 1, 2];
    MisleadingAre(a, b, c);
    MisleadingBundles(a, b, c);
    SmallBudgetFits(cs, unique, 10, 2);
    OverlapVariesLittle(cs, unique);
    FirstIsBundle(cs);
    BucketCoversBundles(cs, unique, 10, 2, 2, [0], 0.18);
    var x :| x in Bucket(cs, unique, 10, 2, 1) && 1.001 - Loss(2, 1, 0.18) <= x.utility;
    SinglesAmongTwo(a, b, c, x);
  }

  /** Of the single documents among the first two only the first is left. */
  lemma OneSurvives(a: set<string>, b: set<string>, c: set<string>, x: State)
    requires ValidIndices(Misleading(a, b, c), [0, 1, 2]) && x in Bucket(Misleading(a, b, c), [0, 1, 2], 10, 2, 1)
    ensures x == State(1, 1.001, [0])
  {
    hide Misleading, BundleUtility, TotalPrice, Considered, Pool, Front, ParetoFront, FrontFits;
    hide Increasing, ValidIndices;
    var cs := Misleading(a, b, c);
    var unique := [0, 1, 2];
    MisleadingAre(a, b, c);
    SmallBudgetFits(cs, unique, 10, 2);
    FrontIsWhole(cs, unique, 10, 2);
    FirstSurvives(a, b, c);
    SinglesAmongTwo(a, b, c, x);
    FrontIsPareto(Pool(cs, unique, 10, 2, 1));
    SamePriceOnce(Front(Pool(cs, unique, 10, 2, 1)), x, State(1, 1.001, [0]));
  }

  lemma FrontIsWhole(cs: seq<Candidate>, unique: seq<nat>, budget: U64, k: nat)
    requires 1 <= k <= |unique| && ValidIndices(cs, unique) && Increasing(unique) && FrontsFit(cs, unique, budget, 2)
    ensures Bucket(cs, unique, budget, k, 1) == Front(Pool(cs, unique, budget, k, 1))
  {
    hide Pool, Front;
    assert FrontFits(cs, unique, budget, k, 1);
  }

  lemma SamePriceOnce(front: seq<State>, x: State, y: State)
    requires ParetoFront(front) && x in front && y in front && x.spent == y.spent
    ensures x == y
  {
    var i :| 0 <= i < |front| && front[i] == x;
    var j :| 0 <= j < |front| && front[j] == y;
  }

  lemma PairsFound(a: set<string>, b: set<string>, c: set<string>, chosen: seq<nat>)
    requires var cs := Misleading(a, b, c); ValidIndices(cs, chosen) && BestOfItsSize(cs, 10, chosen)
    requires |chosen| == 2
    ensures BundleUtility(Misleading(a, b, c), chosen) <= 4.001 - 0.18 * Jaccard(c, a)
  {
    var cs := Misleading(a, b, c);
    MisleadingAre(a, b, c);
    hide Misleading, BundleUtility, Considered, Bucket, Jaccard;
    var states := Bucket(cs, [0, 1, 2], 10, 3, 2);
    var i :| 0 <= i < |states| && BestAt(states, i) && states[i].indices == chosen
      && states[i].utility == BundleUtility(cs, chosen);
    PairsInBucket(a, b, c, states[i]);
  }

  lemma PairsInBucket(a: set<string>, b: set<string>, c: set<string>, x: State)
    requires ValidIndices(Misleading(a, b, c), [0, 1, 2]) && x in Bucket(Misleading(a, b, c), [0, 1, 2], 10, 3, 2)
    ensures x.utility <= 4.001 - 0.18 * Jaccard(c, a)
  {
    hide Misleading, BundleUtility, Considered, MarginalUtility, Increasing, ValidIndices, Jaccard, Pool, Bundle;
    hide TotalPrice;
    var cs := Misleading(a, b, c);
    var unique := [0, 1, 2];
    MisleadingAre(a, b, c);
    MisleadingBundles(a, b, c);
    MisleadingMargins(a, b, c);
    FromPool(cs, unique, 10, 3, 2, x);
    hide Bucket;
    if x in Bucket(cs, unique, 10, 2, 2) {
      BucketIsAccounted(cs, unique, 10, 2, 2);
      assert Accounted(cs, unique, 10, 2, 2, x);
      FewAmongTwo(cs, x.indices);
    } else {
      var y := ExtendedComesFrom(cs, Bucket(cs, unique, 10, 2, 1), unique[2], 10, x);
      OneSurvives(a, b, c, y);
    }
  }

  lemma FromPool(cs: seq<Candidate>, unique: seq<nat>, budget: U64, k: nat, count: nat, x: State)
    requires 1 <= k <= |unique| && 1 <= count && ValidIndices(cs, unique)
    requires x in Bucket(cs, unique, budget, k, count)
    ensures x in Bucket(cs, unique, budget, k - 1, count)
      || x in Extended(cs, Bucket(cs, unique, budget, k - 1, count - 1), unique[k - 1], budget)
  {
    assert x in Pool(cs, unique, budget, k, count);
    hide Bucket;
  }

  /** The largest document count that has a state at all. */
  method Fullest(table: seq<seq<State>>) returns (count: nat)
    requires |table| > 0 && |table[0]| > 0
    ensures count < |table| && |table[count]| > 0
    ensures forall c :: count < c < |table| ==> |table[c]| == 0
  {
    count := |table| - 1;
    while |table[count]| == 0
      invariant 0 <= count < |table|
      invariant forall c :: count < c < |table| ==> |table[c]| == 0
      decreases count
    {
      count := count - 1;
    }
  }

  lemma FullestIsRight(cs: seq<Candidate>, requested: nat, budget: U64, count: nat, table: seq<seq<State>>, best: State)
    requires count <= requested && |table| == requested + 1
    requires TableAt(cs, Considered(cs), budget, |Considered(cs)|, table, 0, requested + 1)
    requires table[count] != [] && best == BestOf(table[count])
    requires forall c :: count < c <= requested ==> |table[c]| == 0
    ensures Offerable(cs, requested, budget, best.indices) && |best.indices| == count
    ensures FrontsFit(cs, Considered(cs), budget, requested) ==>
      forall s :: Offerable(cs, requested, budget, s) ==> |s| <= count
    ensures count == 0 <==> requested == 0 || forall i :: i in Considered(cs) ==> cs[i].price > budget
    ensures BestOfItsSize(cs, budget, best.indices)
  {
    hide Considered, Bucket, Increasing, BundleUtility, DistinctAuthors, BestOf, BestOfItsSize, BestAt;
    hide Offerable, FrontsFit, Accounted, Bundle;
    assert table[count] == Bucket(cs, Considered(cs), budget, |Considered(cs)|, count);
    BestIsOffered(cs, requested, budget, count, best);
    NoneIsLarger(cs, requested, budget, count);
    EmptyExactlyWhenNothingAffordable(cs, budget, requested, count);
    BestIsOfItsSize(cs, budget, best);
  }

  lemma BestIsOffered(cs: seq<Candidate>, requested: nat, budget: U64, count: nat, best: State)
    requires count <= requested && best in Bucket(cs, Considered(cs), budget, |Considered(cs)|, count)
    ensures Offerable(cs, requested, budget, best.indices) && |best.indices| == count
    ensures ValidIndices(cs, best.indices) && best.utility == BundleUtility(cs, best.indices)
  {
    hide Considered, Bucket, Increasing, BundleUtility, DistinctAuthors;
    BucketIsAccounted(cs, Considered(cs), budget, |Considered(cs)|, count);
    assert Accounted(cs, Considered(cs), budget, |Considered(cs)|, count, best);
    BundlesHaveDistinctAuthors(cs, best.indices);
  }

  lemma NoneIsLarger(cs: seq<Candidate>, requested: nat, budget: U64, count: nat)
    requires forall c :: count < c <= requested ==> |Bucket(cs, Considered(cs), budget, |Considered(cs)|, c)| == 0
    ensures FrontsFit(cs, Considered(cs), budget, requested) ==>
      forall s :: Offerable(cs, requested, budget, s) ==> |s| <= count
  {
    hide Considered, Bucket, Increasing, BundleUtility, DistinctAuthors, FrontsFit, OverlapVaries;
    var unique := Considered(cs);
    OverlapVariesLittle(cs, unique);
    if FrontsFit(cs, unique, budget, requested) {
      forall s | Offerable(cs, requested, budget, s) ensures |s| <= count {
        BucketCoversBundles(cs, unique, budget, |unique|, requested, s, 0.18);
      }
    }
  }

  lemma BestIsOfItsSize(cs: seq<Candidate>, budget: U64, best: State)
    requires ValidIndices(cs, best.indices) && best.utility == BundleUtility(cs, best.indices)
    requires var states := Bucket(cs, Considered(cs), budget, |Considered(cs)|, |best.indices|);
      states != [] && best == BestOf(states)
    ensures BestOfItsSize(cs, budget, best.indices)
  {
    hide Bucket, Considered, BestOf, BundleUtility, BestAt;
  }

  lemma EmptyExactlyWhenNothingAffordable(cs: seq<Candidate>, budget: U64, requested: nat, count: nat)
    requires count <= requested
    requires count > 0 ==> |Bucket(cs, Considered(cs), budget, |Considered(cs)|, count)| > 0
    requires forall c :: count < c <= requested ==> |Bucket(cs, Considered(cs), budget, |Considered(cs)|, c)| == 0
    ensures count == 0 <==> requested == 0 || forall i :: i in Considered(cs) ==> cs[i].price > budget
  {
    hide Considered, Bucket, Increasing, BundleUtility;
    var unique := Considered(cs);
    if count > 0 {
      var bucket := Bucket(cs, unique, budget, |unique|, count);
      BucketIsAccounted(cs, unique, budget, |unique|, count);
      assert bucket[0] in bucket;
      assert Accounted(cs, unique, budget, |unique|, count, bucket[0]);
      TotalCoversLast(cs, bucket[0].indices);
      var last := bucket[0].indices[count - 1];
      assert last in unique && cs[last].price <= budget;
    } else if requested > 0 {
      forall i | i in unique ensures cs[i].price > budget {
        if cs[i].price <= budget {
          var k :| 0 <= k < |unique| && unique[k] == i;
          AffordableFillsFirstBucket(cs, unique, budget, k, |unique|);
        }
      }
    }
  }

  lemma TotalCoversLast(cs: seq<Candidate>, s: seq<nat>)
    requires ValidIndices(cs, s) && s != []
    ensures cs[s[|s| - 1]].price <= TotalPrice(cs, s)
  {
  }

  lemma {:induction false} AffordableFillsFirstBucket(cs: seq<Candidate>, unique: seq<nat>, budget: U64, i: nat, k: nat)
    requires i < k <= |unique| && ValidIndices(cs, unique) && Increasing(unique) && cs[unique[i]].price <= budget
    ensures |Bucket(cs, unique, budget, k, 1)| > 0
    decreases k
  {
    var pool := Pool(cs, unique, budget, k, 1);
    if i < k - 1 {
      AffordableFillsFirstBucket(cs, unique, budget, i, k - 1);
    } else {
      var empty := State(0, 0.0, []);
      assert empty in Bucket(cs, unique, budget, k - 1, 0);
      ExtendedHolds(cs, Bucket(cs, unique, budget, k - 1, 0), unique[i], budget, empty);
      assert Extension(cs, empty, unique[i]) in pool;
    }
    PruningKeepsSomething(pool);
  }

  /** Without a budget: greedily the best next document, until enough or none is left. */
  method SelectGreedily(cs: seq<Candidate>, requested: nat) returns (chosen: seq<nat>)
    ensures ValidIndices(cs, chosen) && DistinctAuthors(cs, chosen)
    ensures |chosen| == if |Considered(cs)| < requested then |Considered(cs)| else requested
    ensures forall i :: i in chosen ==> i in Considered(cs)
    ensures forall n :: 0 <= n < |chosen| ==> BestNext(cs, chosen[..n], chosen[n])
  {
    var unique := Considered(cs);
    ConsideredIsDistinct(cs);
    chosen := [];
    while |chosen| < requested && |chosen| < |unique|
      invariant |chosen| <= requested && |chosen| <= |unique|
      invariant (forall i :: i in chosen ==> i in unique) && ValidIndices(cs, chosen)
      invariant NoRepeats(chosen)
      invariant forall n :: 0 <= n < |chosen| ==> BestNext(cs, chosen[..n], chosen[n])
    {
      var next := PickNext(cs, unique, chosen);
      ghost var before := chosen;
      chosen := chosen + [next];
      assert forall n :: 0 <= n < |before| ==> chosen[..n] == before[..n];
      assert chosen[..|before|] == before;
    }
    GreedyAuthors(cs, chosen);
  }

  /** No unchosen considered candidate would add more, and none ranked below it as much. */
  ghost predicate BestNext(cs: seq<Candidate>, chosen: seq<nat>, next: nat)
    requires ValidIndices(cs, chosen) && next < |cs|
  {
    forall i :: i in Considered(cs) && i !in chosen ==>
      && MarginalUtility(cs, i, chosen) <= MarginalUtility(cs, next, chosen)
      && (i > next ==> MarginalUtility(cs, i, chosen) < MarginalUtility(cs, next, chosen))
  }

  method PickNext(cs: seq<Candidate>, unique: seq<nat>, chosen: seq<nat>) returns (next: nat)
    requires unique == Considered(cs) && ValidIndices(cs, chosen)
    requires |chosen| < |unique| && NoRepeats(chosen) && forall i :: i in chosen ==> i in unique
    ensures next in unique && next !in chosen && BestNext(cs, chosen, next)
  {
    var best: Option<nat> := None;
    var k := 0;
    hide MarginalUtility, BestSoFar, BestNext, Considered;
    NoneSoFar(cs, unique, chosen);
    while k < |unique|
      invariant 0 <= k <= |unique|
      invariant best.Some? ==> best.value < |cs|
      invariant BestSoFar(cs, unique, chosen, k, best)
    {
      OneMoreSeen(cs, unique, chosen, k, best);
      if unique[k] !in chosen
         && (best.None? || MarginalUtility(cs, best.value, chosen) <= MarginalUtility(cs, unique[k], chosen)) {
        best := Some(unique[k]);
      }
      k := k + 1;
    }
    AllSeen(cs, chosen, best);
    next := best.value;
  }

  /** The last of the best unchosen ones among the first `k`. */
  ghost predicate BestSoFar(cs: seq<Candidate>, unique: seq<nat>, chosen: seq<nat>, k: nat, best: Option<nat>)
    requires k <= |unique| && ValidIndices(cs, unique) && ValidIndices(cs, chosen)
  {
    if best.None? then forall i :: 0 <= i < k ==> unique[i] in chosen
    else
      && best.value in unique[..k] && best.value !in chosen && best.value < |cs|
      && forall i :: 0 <= i < k && unique[i] !in chosen ==>
           && MarginalUtility(cs, unique[i], chosen) <= MarginalUtility(cs, best.value, chosen)
           && (unique[i] > best.value ==>
                 MarginalUtility(cs, unique[i], chosen) < MarginalUtility(cs, best.value, chosen))
  }

  lemma NoneSoFar(cs: seq<Candidate>, unique: seq<nat>, chosen: seq<nat>)
    requires ValidIndices(cs, unique) && ValidIndices(cs, chosen)
    ensures BestSoFar(cs, unique, chosen, 0, None)
  {
  }

  lemma OneMoreSeen(cs: seq<Candidate>, unique: seq<nat>, chosen: seq<nat>, k: nat, best: Option<nat>)
    requires k < |unique| && ValidIndices(cs, unique) && ValidIndices(cs, chosen) && Increasing(unique)
    requires (best.Some? ==> best.value < |cs|) && BestSoFar(cs, unique, chosen, k, best)
    ensures
      var better := unique[k] !in chosen
        && (best.None? || MarginalUtility(cs, best.value, chosen) <= MarginalUtility(cs, unique[k], chosen));
      BestSoFar(cs, unique, chosen, k + 1, if better then Some(unique[k]) else best)
  {
    hide MarginalUtility;
    if best.Some? {
      var i :| 0 <= i < k && unique[..k][i] == best.value;
      assert unique[..k + 1][i] == best.value;
    }
    assert unique[..k + 1][k] == unique[k];
  }

  lemma AllSeen(cs: seq<Candidate>, chosen: seq<nat>, best: Option<nat>)
    requires ValidIndices(cs, chosen) && BestSoFar(cs, Considered(cs), chosen, |Considered(cs)|, best)
    requires |chosen| < |Considered(cs)| && NoRepeats(chosen)
    ensures best.Some? && best.value in Considered(cs) && best.value !in chosen && best.value < |cs|
    ensures BestNext(cs, chosen, best.value)
  {
    hide MarginalUtility, Considered;
    var unique := Considered(cs);
    SomeUnchosen(unique, chosen);
    assert unique[..|unique|] == unique;
  }

  lemma SomeUnchosen(unique: seq<nat>, chosen: seq<nat>)
    requires Increasing(unique) && NoRepeats(chosen) && |chosen| < |unique|
    ensures exists i :: 0 <= i < |unique| && unique[i] !in chosen
  {
    SetSize(unique);
    SetSize(chosen);
    if forall i :: 0 <= i < |unique| ==> unique[i] in chosen {
      assert Elements(unique) <= Elements(chosen);
      SubsetSize(Elements(unique), Elements(chosen));
    }
  }

  function Elements(s: seq<nat>): set<nat> {
    set i | i in s
  }

  lemma {:induction false} SetSize(s: seq<nat>)
    requires NoRepeats(s)
    ensures |Elements(s)| == |s|
  {
    if s != [] {
      var init := s[..|s| - 1];
      SetSize(init);
      assert Elements(s) == Elements(init) + {s[|s| - 1]} by {
        assert s == init + [s[|s| - 1]];
      }
      assert s[|s| - 1] !in init;
    }
  }

  lemma {:induction false} SubsetSize(a: set<nat>, b: set<nat>)
    requires a <= b
    ensures |a| <= |b|
  {
    if a != {} {
      var x :| x in a;
      SubsetSize(a - {x}, b - {x});
    }
  }

  lemma GreedyAuthors(cs: seq<Candidate>, chosen: seq<nat>)
    requires ValidIndices(cs, chosen) && NoRepeats(chosen) && forall i :: i in chosen ==> i in Considered(cs)
    ensures DistinctAuthors(cs, chosen)
  {
    ConsideredIsDistinct(cs);
    var unique := Considered(cs);
    forall i, j | 0 <= i < j < |chosen| ensures cs[chosen[i]].author != cs[chosen[j]].author {
      assert chosen[i] in unique && chosen[j] in unique;
      var a :| 0 <= a < |unique| && unique[a] == chosen[i];
      var b :| 0 <= b < |unique| && unique[b] == chosen[j];
    }
  }
}
