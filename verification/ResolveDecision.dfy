/**
 * What a resolved question is answered with: the decision, quote and open-call
 * part of resolve_with_observer in backend/src/search.rs, and the server's
 * check of the agent's next step in backend/src/orchestrator.rs.
 */
module ResolveDecision {
  import opened Wrappers
  import opened Sorting
  import opened Sums
  import opened Selection

  const MAX_REQUESTED_DOCUMENTS: nat := 20
  const DEFAULT_OPEN_CALL_PRICE_UNITS: nat := 675

  datatype Decision = Hit | Miss

  datatype Reason = CoverageReady | NoRelevantDocuments | BudgetTooLow | InsufficientCoverage

  datatype Liquidity = AiLiquidityOnly | HybridCoverage | HumanCovered

  datatype Quote = Quote(documentCount: nat, totalPrice: nat)

  datatype OpenCall = OpenCall(
    targetAnswers: nat, existingMatches: nat, answersNeeded: nat, suggestedUnitPrice: nat, suggestedBudget: nat)

  /** `matches` are positions in the ranked candidates. */
  datatype Response = Response(
    decision: Decision,
    reason: Reason,
    liquidity: Liquidity,
    baselineEligible: bool,
    candidateCount: nat,
    matches: seq<nat>,
    quote: Option<Quote>,
    openCall: Option<OpenCall>)

  datatype ResolveError = InvalidRequestedDocuments

  datatype Tool =
    | ProposeEvidencePurchase
    | ProposeHybridResearch
    | ProposeOpenCall
    | GenerateGeneralBaseline
    | FinishWithoutPurchase
    | OtherTool

  function AtMost(): (nat, nat) -> bool {
    (a: nat, b: nat) => a <= b
  }

  function Itself(p: nat): nat { p }

  function Prices(cs: seq<Candidate>, matches: seq<nat>): (r: seq<nat>)
    requires ValidIndices(cs, matches)
    ensures |r| == |matches| && forall i :: 0 <= i < |r| ==> r[i] == cs[matches[i]].price
  {
    seq(|matches|, i requires 0 <= i < |matches| => cs[matches[i]].price)
  }

  /** The median price of the matches, or the standing price when there are none. */
  function SuggestedPrice(cs: seq<Candidate>, matches: seq<nat>): nat
    requires ValidIndices(cs, matches)
  {
    if |matches| == 0 then DEFAULT_OPEN_CALL_PRICE_UNITS else Sorted(Prices(cs, matches), AtMost())[|matches| / 2]
  }

  /** An affordable, offerable bundle of the full size. */
  ghost predicate CoverageExists(cs: seq<Candidate>, requested: nat, budget: nat) {
    exists s :: Offerable(cs, requested, budget, s) && |s| == requested
  }

  ghost predicate NothingAffordable(cs: seq<Candidate>, budget: nat) {
    forall i :: i in Considered(cs) ==> cs[i].price > budget
  }

  /** What a buyer can rely on in an answer, whatever the candidates. */
  ghost predicate Sound(cs: seq<Candidate>, requested: nat, budget: Option<U64>, r: Response) {
    && ValidIndices(cs, r.matches) && DistinctAuthors(cs, r.matches) && |r.matches| <= requested
    && r.candidateCount == |cs|
    && QuoteSound(cs, budget, r)
    && (r.decision.Hit? <==> |r.matches| == requested)
    && (r.decision.Hit? ==> r.openCall.None?)
    && SupplySound(cs, requested, r)
    && (r.decision.Miss? ==> r.openCall.Some? && OpenCallSound(cs, requested, r.matches, r.openCall.value))
    && ReasonSound(cs, budget, r)
  }

  /** Free liquidity depends on what was found, not on what can be afforded, and is there for a shortage only. */
  ghost predicate SupplySound(cs: seq<Candidate>, requested: nat, r: Response) {
    && (r.liquidity.AiLiquidityOnly? <==> cs == [])
    && (r.liquidity.HumanCovered? <==> |cs| >= requested)
    && (r.baselineEligible <==> |cs| < requested)
    && (r.decision.Hit? ==> !r.baselineEligible)
  }

  /** The quoted total is the sum of the selected prices, and never above the budget. */
  ghost predicate QuoteSound(cs: seq<Candidate>, budget: Option<U64>, r: Response)
    requires ValidIndices(cs, r.matches)
  {
    && (r.quote.Some? <==> |r.matches| > 0)
    && (r.quote.Some? ==> r.quote.value == Quote(|r.matches|, SumOf(Prices(cs, r.matches), Itself)))
    && (r.quote.Some? && budget.Some? ==> r.quote.value.totalPrice <= budget.value)
  }

  ghost predicate OpenCallSound(cs: seq<Candidate>, requested: nat, matches: seq<nat>, call: OpenCall)
    requires ValidIndices(cs, matches)
  {
    && call.targetAnswers == requested && call.existingMatches == |matches|
    && call.existingMatches + call.answersNeeded == call.targetAnswers && call.answersNeeded > 0
    && call.suggestedBudget == call.suggestedUnitPrice * call.answersNeeded
    && call.suggestedUnitPrice == SuggestedPrice(cs, matches)
  }

  /** Each reason means what it says. */
  ghost predicate ReasonSound(cs: seq<Candidate>, budget: Option<U64>, r: Response) {
    && (r.reason.CoverageReady? <==> r.decision.Hit?)
    && (r.reason.NoRelevantDocuments? <==> |cs| == 0)
    && (r.reason.BudgetTooLow? <==> |cs| > 0 && budget.Some? && NothingAffordable(cs, budget.value))
    && (r.reason.InsufficientCoverage? <==> r.decision.Miss? && |r.matches| > 0)
  }

  /** Greedily the best next ones, or the best bundle of its size within the budget. */
  ghost predicate WellChosen(cs: seq<Candidate>, requested: nat, budget: Option<U64>, chosen: seq<nat>)
    requires ValidIndices(cs, chosen)
  {
    match budget
    case None => forall n :: 0 <= n < |chosen| ==> BestNext(cs, chosen[..n], chosen[n])
    case Some(b) =>
      && BestOfItsSize(cs, b, chosen)
      && (FrontsFit(cs, Considered(cs), b, requested) ==> NearlyBest(cs, requested, b, chosen))
  }

  /** The selection of the original: with or without a budget. */
  method SelectCandidates(cs: seq<Candidate>, requested: nat, budget: Option<U64>) returns (chosen: seq<nat>)
    requires requested >= 1
    ensures ValidIndices(cs, chosen) && DistinctAuthors(cs, chosen) && |chosen| <= requested
    ensures budget.None? ==> |chosen| == if |Considered(cs)| < requested then |Considered(cs)| else requested
    ensures budget.Some? ==> TotalPrice(cs, chosen) <= budget.value
    ensures budget.Some? ==> (|chosen| == 0 <==> NothingAffordable(cs, budget.value))
    ensures budget.Some? && FrontsFit(cs, Considered(cs), budget.value, requested) ==>
      (|chosen| == requested <==> CoverageExists(cs, requested, budget.value))
    ensures WellChosen(cs, requested, budget, chosen)
  {
    hide BestOfItsSize, NearlyBest;
    if budget.None? {
      chosen := SelectGreedily(cs, requested);
    } else {
      chosen := SelectWithinBudget(cs, requested, budget.value);
      ghost var b := budget.value;
      assert Offerable(cs, requested, b, chosen);
    }
  }

  lemma {:induction false} TotalIsSum(cs: seq<Candidate>, chosen: seq<nat>)
    requires ValidIndices(cs, chosen)
    ensures TotalPrice(cs, chosen) == SumOf(Prices(cs, chosen), Itself)
  {
    if |chosen| > 0 {
      var init := chosen[..|chosen| - 1];
      TotalIsSum(cs, init);
      assert Prices(cs, chosen)[..|chosen| - 1] == Prices(cs, init);
    }
  }

  /** The answer for a finished selection. */
  function Answer(cs: seq<Candidate>, requested: nat, budget: Option<U64>, selected: seq<nat>, spent: nat): Response
    requires ValidIndices(cs, selected) && |selected| <= requested
  {
    var enough := |selected| >= requested;
    var budgetBlocked := budget.Some? && |cs| > 0 && |selected| == 0;
    var decision := if enough then Hit else Miss;
    var reason :=
      if enough then CoverageReady
      else if |cs| == 0 then NoRelevantDocuments
      else if |selected| == 0 && budgetBlocked then BudgetTooLow
      else InsufficientCoverage;
    var liquidity :=
      if |cs| == 0 then AiLiquidityOnly else if |cs| < requested then HybridCoverage else HumanCovered;
    var unit, needed := SuggestedPrice(cs, selected), requested - |selected|;
    Response(decision, reason, liquidity, liquidity != HumanCovered, |cs|, selected,
             if |selected| > 0 then Some(Quote(|selected|, spent)) else None,
             if decision.Miss? then Some(OpenCall(requested, |selected|, needed, unit, unit * needed)) else None)
  }

  /** What the selection established is what makes the answer sound. */
  lemma AnswerIsSound(cs: seq<Candidate>, requested: nat, budget: Option<U64>, selected: seq<nat>)
    requires requested >= 1 && ValidIndices(cs, selected) && DistinctAuthors(cs, selected) && |selected| <= requested
    requires budget.None? ==> |selected| == if |Considered(cs)| < requested then |Considered(cs)| else requested
    requires budget.Some? ==> TotalPrice(cs, selected) <= budget.value
    requires budget.Some? ==> (|selected| == 0 <==> NothingAffordable(cs, budget.value))
    ensures var r := Answer(cs, requested, budget, selected, TotalPrice(cs, selected));
      && Sound(cs, requested, budget, r) && NextActionAllowed(r, DeterministicNextAction(r))
      && (r.decision.Hit? <==> |selected| == requested) && r.matches == selected
  {
    ChosenWithin(cs, selected);
    QuoteIsSound(cs, requested, budget, selected);
    ReasonIsSound(cs, requested, budget, selected);
    OpenCallIsSound(cs, requested, budget, selected);
    hide *;
    AnswerAssembled(cs, requested, budget, selected);
  }

  lemma AnswerAssembled(cs: seq<Candidate>, requested: nat, budget: Option<U64>, selected: seq<nat>)
    requires requested >= 1 && ValidIndices(cs, selected) && DistinctAuthors(cs, selected)
    requires |selected| <= requested && |selected| <= |cs|
    requires var r := Answer(cs, requested, budget, selected, TotalPrice(cs, selected));
      && QuoteSound(cs, budget, r) && ReasonSound(cs, budget, r)
      && (r.decision.Miss? ==> r.openCall.Some? && OpenCallSound(cs, requested, selected, r.openCall.value))
    ensures var r := Answer(cs, requested, budget, selected, TotalPrice(cs, selected));
      && Sound(cs, requested, budget, r) && (r.decision.Hit? <==> |selected| == requested) && r.matches == selected
      && NextActionAllowed(r, DeterministicNextAction(r))
  {
    hide TotalPrice, DistinctAuthors, SuggestedPrice, QuoteSound, OpenCallSound, NothingAffordable;
  }

  lemma QuoteIsSound(cs: seq<Candidate>, requested: nat, budget: Option<U64>, selected: seq<nat>)
    requires ValidIndices(cs, selected) && |selected| <= requested
    requires budget.Some? ==> TotalPrice(cs, selected) <= budget.value
    ensures QuoteSound(cs, budget, Answer(cs, requested, budget, selected, TotalPrice(cs, selected)))
  {
    TotalIsSum(cs, selected);
    hide TotalPrice, SuggestedPrice, SumOf;
  }

  lemma OpenCallIsSound(cs: seq<Candidate>, requested: nat, budget: Option<U64>, selected: seq<nat>)
    requires ValidIndices(cs, selected) && |selected| <= requested
    ensures var r := Answer(cs, requested, budget, selected, TotalPrice(cs, selected));
      r.decision.Miss? ==> r.openCall.Some? && OpenCallSound(cs, requested, selected, r.openCall.value)
  {
    hide TotalPrice, SuggestedPrice;
  }

  lemma ReasonIsSound(cs: seq<Candidate>, requested: nat, budget: Option<U64>, selected: seq<nat>)
    requires requested >= 1 && ValidIndices(cs, selected) && |selected| <= requested
    requires budget.None? ==> |selected| == if |Considered(cs)| < requested then |Considered(cs)| else requested
    requires budget.Some? ==> (|selected| == 0 <==> NothingAffordable(cs, budget.value))
    requires |selected| <= |cs|
    ensures ReasonSound(cs, budget, Answer(cs, requested, budget, selected, TotalPrice(cs, selected)))
  {
    ConsideredWithin(cs);
    hide TotalPrice, SuggestedPrice, Considered, NothingAffordable, ValidIndices;
  }

  method Resolve(cs: seq<Candidate>, requested: nat, budget: Option<U64>) returns (r: Result<Response, ResolveError>)
    ensures r.Err? <==> requested < 1 || requested > MAX_REQUESTED_DOCUMENTS
    ensures r.Ok? ==> Sound(cs, requested, budget, r.value)
    ensures r.Ok? ==> NextActionAllowed(r.value, DeterministicNextAction(r.value))
    ensures r.Ok? && budget.None? ==> (r.value.decision.Hit? <==> |Considered(cs)| >= requested)
    ensures r.Ok? && budget.Some? && FrontsFit(cs, Considered(cs), budget.value, requested) ==>
      (r.value.decision.Hit? <==> CoverageExists(cs, requested, budget.value))
    ensures r.Ok? ==> ValidIndices(cs, r.value.matches) && WellChosen(cs, requested, budget, r.value.matches)
  {
    if requested < 1 || requested > MAX_REQUESTED_DOCUMENTS {
      return Err(InvalidRequestedDocuments);
    }
    var selected := SelectCandidates(cs, requested, budget);
    AnswerIsSound(cs, requested, budget, selected);
    hide *;
    var spent := Spent(cs, selected);
    return Ok(Answer(cs, requested, budget, selected, spent));
  }

  method Spent(cs: seq<Candidate>, selected: seq<nat>) returns (spent: nat)
    requires ValidIndices(cs, selected)
    ensures spent == TotalPrice(cs, selected)
  {
    hide TotalPrice;
    spent := 0;
    var i := 0;
    NothingSpent(cs, selected);
    while i < |selected|
      invariant 0 <= i <= |selected| && spent == TotalPrice(cs, selected[..i])
    {
      NextSpent(cs, selected, i);
      spent := spent + cs[selected[i]].price;
      i := i + 1;
    }
    assert selected[..i] == selected;
  }

  lemma NothingSpent(cs: seq<Candidate>, selected: seq<nat>)
    requires ValidIndices(cs, selected)
    ensures TotalPrice(cs, selected[..0]) == 0
  {
  }

  lemma NextSpent(cs: seq<Candidate>, selected: seq<nat>, i: nat)
    requires ValidIndices(cs, selected) && i < |selected|
    ensures TotalPrice(cs, selected[..i + 1]) == TotalPrice(cs, selected[..i]) + cs[selected[i]].price
  {
    assert selected[..i + 1][..i] == selected[..i];
  }

  /** Nothing is considered exactly when nothing was retrieved; no affordable document means nothing chosen. */
  lemma ConsideredWithin(cs: seq<Candidate>)
    ensures |Considered(cs)| <= |cs| && (|cs| > 0 ==> |Considered(cs)| > 0)
  {
    ConsideredIsDistinct(cs);
    IncreasingWithin(Considered(cs), |cs|);
  }

  lemma {:induction false} IncreasingWithin(s: seq<nat>, n: nat)
    requires Increasing(s) && forall i :: 0 <= i < |s| ==> s[i] < n
    ensures |s| <= n
  {
    if |s| > 0 {
      var last := s[|s| - 1];
      IncreasingWithin(s[..|s| - 1], last);
    }
  }

  /** Distinct authors means distinct positions: at most all candidates are chosen. */
  lemma ChosenWithin(cs: seq<Candidate>, chosen: seq<nat>)
    requires ValidIndices(cs, chosen) && DistinctAuthors(cs, chosen)
    ensures |chosen| <= |cs|
  {
    UpToSize(|cs|);
    SetSize(chosen);
    SubsetSize(Elements(chosen), UpTo(|cs|));
  }

  function UpTo(n: nat): (s: set<nat>)
    ensures forall i: nat :: i in s <==> i < n
  {
    if n == 0 then {} else UpTo(n - 1) + {n - 1}
  }

  lemma {:induction false} UpToSize(n: nat)
    ensures |UpTo(n)| == n
  {
    if n > 0 {
      UpToSize(n - 1);
    }
  }

  // ---- the agent's next step ----

  predicate NextActionAllowed(r: Response, tool: Tool) {
    tool.FinishWithoutPurchase? ||
    match r.decision
    case Hit => tool.ProposeEvidencePurchase?
    case Miss =>
      if |r.matches| > 0 then tool.ProposeHybridResearch? || tool.ProposeOpenCall? || tool.GenerateGeneralBaseline?
      else tool.GenerateGeneralBaseline? || tool.FinishWithoutPurchase?
  }

  function DeterministicNextAction(r: Response): Tool {
    if r.decision.Hit? then ProposeEvidencePurchase
    else if r.reason.InsufficientCoverage? && r.liquidity.HybridCoverage? then ProposeHybridResearch
    else GenerateGeneralBaseline
  }

  /** On its own the fallback is allowed in all responses but one kind, which the resolver never gives. */
  lemma FallbackAllowedExactly(r: Response)
    ensures NextActionAllowed(r, DeterministicNextAction(r)) <==>
      !(r.decision.Miss? && r.reason.InsufficientCoverage? && r.liquidity.HybridCoverage? && |r.matches| == 0)
  {
  }

  /** What is proposed in a sound answer: the bundle it found, the missing human part, or a baseline. */
  lemma FallbackExactly(cs: seq<Candidate>, requested: nat, budget: Option<U64>, r: Response)
    requires requested >= 1 && Sound(cs, requested, budget, r)
    ensures DeterministicNextAction(r) ==
      if |r.matches| == requested then ProposeEvidencePurchase
      else if |cs| < requested && r.matches != [] then ProposeHybridResearch
      else GenerateGeneralBaseline
    ensures NextActionAllowed(r, ProposeEvidencePurchase) <==> |r.matches| == requested
    ensures NextActionAllowed(r, GenerateGeneralBaseline) <==> |r.matches| < requested
    ensures NextActionAllowed(r, ProposeOpenCall) <==> NextActionAllowed(r, ProposeHybridResearch)
    ensures NextActionAllowed(r, ProposeOpenCall) <==> 0 < |r.matches| < requested
  {
    NothingFound(cs, r);
    hide Considered, QuoteSound, OpenCallSound, DistinctAuthors, NothingAffordable;
  }

  lemma NothingFound(cs: seq<Candidate>, r: Response)
    requires ValidIndices(cs, r.matches)
    ensures cs == [] ==> r.matches == []
  {
    assert |r.matches| > 0 ==> r.matches[0] < |cs|;
  }

  /** The suggested unit price is a median: no more than half the matches lie strictly on either side. */
  lemma SuggestedPriceIsMedian(cs: seq<Candidate>, matches: seq<nat>)
    requires ValidIndices(cs, matches) && |matches| > 0
    ensures var sorted := Sorted(Prices(cs, matches), AtMost());
      && multiset(sorted) == multiset(Prices(cs, matches))
      && (forall i :: 0 <= i <= |matches| / 2 ==> sorted[i] <= SuggestedPrice(cs, matches))
      && (forall i :: |matches| / 2 <= i < |matches| ==> SuggestedPrice(cs, matches) <= sorted[i])
  {
    var prices, le := Prices(cs, matches), AtMost();
    assert TotalOrder(le);
    SortedPermutes(prices, le);
    SortedInOrder(prices, le);
    var sorted := Sorted(prices, le);
    forall i, j | 0 <= i <= j < |sorted| ensures sorted[i] <= sorted[j] {
      assert i < j ==> le(sorted[i], sorted[j]);
    }
  }
}
