/**
 * What a run of a research job guarantees, however the environment answers and
 * wherever it is cut off; what it guarantees about money and termination under
 * a ledger that may re-quote a document but never lists a delivered one again;
 * and exactly when money and termination are in order under any ledger.
 */
module RunnerSafety {
  import opened Wrappers
  import opened Sorting
  import opened Sums
  import opened Runner

  /** The quote of a paid call whose outcome no accepted plan has shown yet. */
  function Unresolved(trace: seq<Call>): Option<Id> {
    if |trace| == 0 then None
    else
      var before, last := Unresolved(trace[..|trace| - 1]), trace[|trace| - 1];
      match last
      case Paid(resource, _, reply) => if reply.NotSent? then before else Some(resource.quote)
      case Planned(answer) =>
        if before.Some? && answer.Some? && Accepted(answer.value) && !Lists(answer.value, before.value) then None
        else before
      case _ => before
  }

  /** A paid call comes right after the committed begin of the same quote and attempt. */
  predicate PaidAfterBegin(trace: seq<Call>, i: nat)
    requires i < |trace|
  {
    trace[i].Paid? ==> i > 0 && trace[i - 1] == Begun(trace[i].resource.quote, trace[i].attempt, true)
  }

  /** A payment is begun right after its own challenge was verified. */
  predicate BegunAfterCheck(trace: seq<Call>, i: nat)
    requires i < |trace|
  {
    trace[i].Begun? ==> i > 0 && trace[i - 1] == Verified(trace[i].quote, true)
  }

  /** Failing needs a resolved past, holding an unresolved one, completing a plan with nothing left. */
  ghost predicate ClosedProperly(trace: seq<Call>, i: nat)
    requires i < |trace|
  {
    && (trace[i].Failed? ==> Unresolved(trace[..i]).None?)
    && (trace[i].Held? ==> Unresolved(trace[..i]).Some?)
    && (trace[i].Completed? ==>
          && Unresolved(trace[..i]).None? && i > 0 && trace[i - 1].Planned?
          && trace[i - 1].answer.Some? && Accepted(trace[i - 1].answer.value)
          && |trace[i - 1].answer.value.resources| == 0)
  }

  ghost predicate SafeTrace(trace: seq<Call>) {
    forall i :: 0 <= i < |trace| ==>
      BegunAfterCheck(trace, i) && PaidAfterBegin(trace, i) && ClosedProperly(trace, i)
  }

  /** What the point of the machine says about the calls so far. */
  ghost predicate PointSound(r: Run) {
    match r.point
    case AskPlan => r.trace == []
    case Verifying(_, _, _) => Unresolved(r.trace).None?
    case Beginning(plan, _) =>
      && Unresolved(r.trace).None? && |r.trace| > 0 && |plan.resources| > 0
      && r.trace[|r.trace| - 1] == Verified(plan.resources[0].quote, true)
    case Paying(plan, attempt) =>
      && Unresolved(r.trace).None? && |r.trace| > 0 && |plan.resources| > 0
      && r.trace[|r.trace| - 1] == Begun(plan.resources[0].quote, attempt, true)
    case Reloading(plan) => |plan.resources| > 0 && Unresolved(r.trace) == Some(plan.resources[0].quote)
    case Completing =>
      && Unresolved(r.trace).None? && |r.trace| > 0 && r.trace[|r.trace| - 1].Planned?
      && r.trace[|r.trace| - 1].answer.Some? && Accepted(r.trace[|r.trace| - 1].answer.value)
      && |r.trace[|r.trace| - 1].answer.value.resources| == 0
    case Failing => Unresolved(r.trace).None?
    case Holding => Unresolved(r.trace).Some?
    case Done(_) => true
  }

  lemma Appended(trace: seq<Call>, call: Call)
    requires SafeTrace(trace) && BegunAfterCheck(trace + [call], |trace|)
    requires PaidAfterBegin(trace + [call], |trace|) && ClosedProperly(trace + [call], |trace|)
    ensures SafeTrace(trace + [call])
  {
    var longer := trace + [call];
    forall i | 0 <= i < |longer|
      ensures BegunAfterCheck(longer, i) && PaidAfterBegin(longer, i) && ClosedProperly(longer, i)
    {
      if i < |trace| {
        assert BegunAfterCheck(trace, i) && PaidAfterBegin(trace, i) && ClosedProperly(trace, i);
        assert longer[..i] == trace[..i];
      }
    }
  }

  lemma CallIsSafe(env: Env, retries: nat, k: nat, r: Run)
    requires AtResource(r.point) && !r.point.Done? && PointSound(r)
    ensures var (point, call) := Next(env, retries, k, r.point);
      && PointSound(Run(point, r.trace + [call]))
      && BegunAfterCheck(r.trace + [call], |r.trace|)
      && PaidAfterBegin(r.trace + [call], |r.trace|) && ClosedProperly(r.trace + [call], |r.trace|)
  {
    var (point, call) := Next(env, retries, k, r.point);
    assert (r.trace + [call])[..|r.trace|] == r.trace;
  }

  lemma {:induction false} EveryPrefixIsSafe(env: Env, retries: nat, n: nat)
    ensures SafeTrace(After(env, retries, n).trace) && PointSound(After(env, retries, n))
  {
    if n > 0 {
      EveryPrefixIsSafe(env, retries, n - 1);
      var before := After(env, retries, n - 1);
      if !before.point.Done? {
        CallIsSafe(env, retries, n - 1, before);
        var (point, call) := Next(env, retries, n - 1, before.point);
        assert After(env, retries, n) == Run(point, before.trace + [call]);
        hide Next, After, PointSound, SafeTrace, BegunAfterCheck, PaidAfterBegin, ClosedProperly;
        Appended(before.trace, call);
      }
    }
  }

  // ---- money and termination ----

  /** The later plan shows the paid quote of the earlier one as delivered. */
  predicate Drops(plan: Plan, later: Plan) {
    |plan.resources| > 0 && !Lists(later, plan.resources[0].quote)
  }

  /** The j-th answer is a plan that shows the first quote of the i-th one as delivered. */
  predicate Reloads(env: Env, i: nat, j: nat) {
    i < j && Answers(env, i) && Answers(env, j) && Drops(env.plan(i).value, env.plan(j).value)
  }

  /** What a plan that drops a paid quote still lists fits beside the paid amount. */
  ghost predicate Frugal(env: Env) {
    forall i: nat, j: nat | Reloads(env, i, j) ::
      Total(env.plan(j).value) + env.plan(i).value.resources[0].amount <= Total(env.plan(i).value)
  }

  /** A plan that drops a paid quote is shorter. */
  ghost predicate Shortens(env: Env) {
    forall i: nat, j: nat | Reloads(env, i, j) ::
      |env.plan(j).value.resources| < |env.plan(i).value.resources|
  }

  function Total(plan: Plan): nat {
    SumOf(plan.resources, AmountOf)
  }

  predicate Answers(env: Env, k: nat) {
    env.plan(k).Some? && Accepted(env.plan(k).value)
  }

  /** The amounts of the paid calls that may have left the process. */
  function TotalSent(trace: seq<Call>): nat {
    if |trace| == 0 then 0
    else
      TotalSent(trace[..|trace| - 1])
      + (var last := trace[|trace| - 1]; if last.Paid? && !last.reply.NotSent? then last.resource.amount else 0)
  }

  lemma SentAppended(trace: seq<Call>, call: Call)
    ensures TotalSent(trace + [call])
      == TotalSent(trace) + if call.Paid? && !call.reply.NotSent? then call.resource.amount else 0
  {
    assert (trace + [call])[..|trace|] == trace;
  }

  /**
   * The ledger's contract, document by document: a plan lists a document once,
   * an accepted plan lists no document and no amount that earlier plans did not,
   * and a document whose paid quote has gone is not listed under another one.
   * Quote ids are free to change.
   */
  ghost predicate ListsByDocument(env: Env) {
    && (forall i: nat | Answers(env, i) :: DistinctDocuments(env.plan(i).value.resources))
    && (forall i: nat, j: nat | i < j && Answers(env, i) && Answers(env, j) ::
          forall r :: r in env.plan(j).value.resources ==> Offers(env.plan(i).value.resources, r))
    && (forall i: nat, j: nat | Reloads(env, i, j) ::
          forall r :: r in env.plan(j).value.resources ==> r.document != env.plan(i).value.resources[0].document)
  }

  ghost predicate DistinctDocuments(resources: seq<Resource>) {
    forall i, j :: 0 <= i < j < |resources| ==> resources[i].document != resources[j].document
  }

  ghost predicate Offers(resources: seq<Resource>, r: Resource) {
    exists k :: 0 <= k < |resources| && resources[k].document == r.document && r.amount <= resources[k].amount
  }

  /** Resources whose documents are all offered elsewhere are no more and no dearer. */
  lemma {:induction false} OfferedSumsLess(a: seq<Resource>, b: seq<Resource>)
    requires DistinctDocuments(a) && forall r :: r in a ==> Offers(b, r)
    ensures |a| <= |b| && SumOf(a, AmountOf) <= SumOf(b, AmountOf)
  {
    if |a| > 0 {
      var last := a[|a| - 1];
      assert last in a;
      var k :| 0 <= k < |b| && b[k].document == last.document && last.amount <= b[k].amount;
      var rest := b[..k] + b[k + 1..];
      forall r | r in a[..|a| - 1] ensures Offers(rest, r) {
        OfferedBeside(b, k, r);
      }
      OfferedSumsLess(a[..|a| - 1], rest);
      SumOfWithout(b, k, AmountOf);
    }
  }

  lemma OfferedBeside(b: seq<Resource>, k: nat, r: Resource)
    requires k < |b| && Offers(b, r) && r.document != b[k].document
    ensures Offers(b[..k] + b[k + 1..], r)
  {
    var i :| 0 <= i < |b| && b[i].document == r.document && r.amount <= b[i].amount;
    assert (b[..k] + b[k + 1..])[if i < k then i else i - 1] == b[i];
  }

  /** Such a ledger may re-quote what it has not delivered; its plans shrink all the same. */
  lemma ByDocumentShrinks(env: Env)
    requires ListsByDocument(env)
    ensures Frugal(env) && Shortens(env)
  {
    forall i: nat, j: nat | Reloads(env, i, j)
      ensures |env.plan(j).value.resources| < |env.plan(i).value.resources|
      ensures Total(env.plan(j).value) + env.plan(i).value.resources[0].amount <= Total(env.plan(i).value)
    {
      DeliveredShrinks(env.plan(i).value, env.plan(j).value);
    }
  }

  /** A later plan without the paid document is covered by the earlier plan's other resources. */
  lemma DeliveredShrinks(plan: Plan, later: Plan)
    requires |plan.resources| > 0 && DistinctDocuments(later.resources)
    requires forall r :: r in later.resources ==>
      Offers(plan.resources, r) && r.document != plan.resources[0].document
    ensures |later.resources| < |plan.resources|
    ensures Total(later) + plan.resources[0].amount <= Total(plan)
  {
    hide Offers;
    var rest := plan.resources[..0] + plan.resources[1..];
    forall r | r in later.resources ensures Offers(rest, r) {
      OfferedBeside(plan.resources, 0, r);
    }
    OfferedSumsLess(later.resources, rest);
    SumOfWithout(plan.resources, 0, AmountOf);
  }

  /** A ledger that answers one plan and later another that offers no more meets the contract. */
  lemma TwoPlans(env: Env, turn: nat, earlier: Plan, later: Plan)
    requires forall k: nat :: env.plan(k) == Some(if k < turn then earlier else later)
    requires DistinctDocuments(earlier.resources) && DistinctDocuments(later.resources)
    requires |earlier.resources| > 0 && |later.resources| > 0
    requires forall r :: r in later.resources ==>
      Offers(earlier.resources, r) && r.document != earlier.resources[0].document
    ensures ListsByDocument(env)
  {
    assert Lists(earlier, earlier.resources[0].quote) && Lists(later, later.resources[0].quote);
    forall r | r in earlier.resources ensures Offers(earlier.resources, r) {
      var k :| 0 <= k < |earlier.resources| && earlier.resources[k] == r;
    }
    forall r | r in later.resources ensures Offers(later.resources, r) {
      var k :| 0 <= k < |later.resources| && later.resources[k] == r;
    }
    hide Answers, Offers, DistinctDocuments;
    assert !Drops(earlier, earlier) && !Drops(later, later);
    hide Drops, Lists;
  }

  /** Two documents, the second re-quoted while the first was bought: the contract holds. */
  lemma RequotingIsAllowed() returns (env: Env)
    ensures ListsByDocument(env) && Answers(env, 0) && Answers(env, 4)
    ensures Lists(env.plan(4).value, "b2") && !Lists(env.plan(0).value, "b2")
  {
    var a, b, b2 := Resource("first", "a", 1), Resource("second", "b", 1), Resource("second", "b2", 1);
    var earlier, later := Plan(true, 2, [a, b]), Plan(true, 2, [b2]);
    env := Env((k: nat) => Some(if k < 4 then earlier else later),
               (k: nat) => true, (k: nat) => true, (k: nat) => Answered(true), (k: nat) => true, (k: nat) => "attempt");
    assert [a, b][..1] == [a] && [b2][..0] == [] && [a][..0] == [];
    assert SumOf([], AmountOf) == 0 && SumOf([a], AmountOf) == 1;
    assert SumOf([a, b], AmountOf) == 2 && SumOf([b2], AmountOf) == 1;
    assert earlier.resources[0] == a && earlier.resources[1] == b && later.resources[0] == b2;
    assert Accepted(earlier) && Accepted(later);
    assert earlier.resources[1].document == b2.document && Offers(earlier.resources, b2);
    hide SumOf, Accepted, ListsByDocument, Offers;
    TwoPlans(env, 4, earlier, later);
  }

  // ---- the plan in work ----

  predicate HasPlan(p: Point) {
    p.Verifying? || p.Beginning? || p.Paying? || p.Reloading?
  }

  ghost predicate PlanInWork(env: Env, n: nat, plan: Plan) {
    Accepted(plan) && exists k: nat :: k < n && Answers(env, k) && env.plan(k).value == plan
  }

  ghost predicate InWork(env: Env, n: nat, p: Point) {
    (p.AskPlan? ==> n == 0) && (HasPlan(p) ==> PlanInWork(env, n, p.plan))
  }

  lemma EndKeepsWork(env: Env, n: nat, p: Point)
    requires p.Done?
    ensures InWork(env, n, p)
  {
  }

  lemma InWorkStep(env: Env, retries: nat, n: nat, p: Point)
    requires AtResource(p) && !p.Done? && InWork(env, n, p)
    ensures InWork(env, n + 1, Next(env, retries, n, p).0)
  {
    hide Accepted, Lists;
    assert n < n + 1;
    if HasPlan(p) {
      var k: nat :| k < n && Answers(env, k) && env.plan(k).value == p.plan;
      assert k < n + 1;
    }
  }

  /** One step of a run, without unfolding it. */
  lemma StepOf(env: Env, retries: nat, n: nat)
    ensures var before, now := After(env, retries, n), After(env, retries, n + 1);
      if before.point.Done? then now == before
      else now == Run(Next(env, retries, n, before.point).0, before.trace + [Next(env, retries, n, before.point).1])
  {
  }

  lemma WorkStep(env: Env, retries: nat, n: nat)
    requires InWork(env, n, After(env, retries, n).point)
    ensures InWork(env, n + 1, After(env, retries, n + 1).point)
  {
    StepOf(env, retries, n);
    StaysAtResource(env, retries, n);
    hide *;
    if After(env, retries, n).point.Done? {
      EndKeepsWork(env, n + 1, After(env, retries, n + 1).point);
    } else {
      InWorkStep(env, retries, n, After(env, retries, n).point);
    }
  }

  /** The resource in work was listed by a plan this run was given and accepted. */
  lemma {:induction false} WorksOnAcceptedPlans(env: Env, retries: nat, n: nat)
    ensures InWork(env, n, After(env, retries, n).point)
  {
    if n == 0 {
      assert After(env, retries, 0) == Run(AskPlan, []);
    } else {
      hide *;
      WorksOnAcceptedPlans(env, retries, n - 1);
      WorkStep(env, retries, n - 1);
    }
  }

  lemma ReloadSpends(env: Env, n: nat, plan: Plan)
    requires Frugal(env) && PlanInWork(env, n, plan) && Answers(env, n) && Drops(plan, env.plan(n).value)
    ensures Total(env.plan(n).value) + plan.resources[0].amount <= Total(plan)
  {
    var k: nat :| k < n && Answers(env, k) && env.plan(k).value == plan;
    assert Reloads(env, k, n);
  }

  lemma ReloadShortens(env: Env, n: nat, plan: Plan)
    requires Shortens(env) && PlanInWork(env, n, plan) && Answers(env, n) && Drops(plan, env.plan(n).value)
    ensures |env.plan(n).value.resources| < |plan.resources|
  {
    var k: nat :| k < n && Answers(env, k) && env.plan(k).value == plan;
    assert Reloads(env, k, n);
  }

  // ---- money ----

  /** What was sent and what is pending fits the first plan. */
  ghost predicate MoneySound(r: Run, first: Plan) {
    match r.point
    case AskPlan => TotalSent(r.trace) == 0
    case Verifying(plan, _, _) => TotalSent(r.trace) + Total(plan) <= Total(first)
    case Beginning(plan, _) => TotalSent(r.trace) + Total(plan) <= Total(first)
    case Paying(plan, _) => TotalSent(r.trace) + Total(plan) <= Total(first)
    case Reloading(plan) =>
      && |plan.resources| > 0 && TotalSent(r.trace) + Total(plan) <= Total(first) + plan.resources[0].amount
      && TotalSent(r.trace) <= Total(first)
    case _ => TotalSent(r.trace) <= Total(first)
  }

  lemma FirstResourceWithin(plan: Plan)
    requires |plan.resources| > 0
    ensures plan.resources[0].amount <= Total(plan)
  {
    SumOfWithout(plan.resources, 0, AmountOf);
  }

  lemma MoneyStep(env: Env, retries: nat, n: nat, r: Run)
    requires Frugal(env) && Answers(env, 0) && InWork(env, n, r.point)
    requires AtResource(r.point) && !r.point.Done? && MoneySound(r, env.plan(0).value)
    ensures var (point, call) := Next(env, retries, n, r.point);
      MoneySound(Run(point, r.trace + [call]), env.plan(0).value)
  {
    hide Frugal, Total, TotalSent, Accepted, Lists, PlanInWork;
    var (point, call) := Next(env, retries, n, r.point);
    SentAppended(r.trace, call);
    match r.point {
      case Paying(plan, _) => FirstResourceWithin(plan);
      case Reloading(plan) =>
        if Answers(env, n) && Drops(plan, env.plan(n).value) {
          ReloadSpends(env, n, plan);
        }
      case _ =>
    }
  }

  lemma StaysAtResource(env: Env, retries: nat, n: nat)
    ensures AtResource(After(env, retries, n).point)
  {
  }

  lemma KeptWhenDone(env: Env, retries: nat, n: nat)
    ensures After(env, retries, n).point.Done? ==> After(env, retries, n + 1) == After(env, retries, n)
  {
  }

  lemma {:induction false} MoneyStaysSound(env: Env, retries: nat, n: nat)
    requires Frugal(env) && Answers(env, 0)
    ensures MoneySound(After(env, retries, n), env.plan(0).value)
  {
    if n == 0 {
      assert After(env, retries, 0) == Run(AskPlan, []);
    } else {
      StepOf(env, retries, n - 1);
      KeptWhenDone(env, retries, n - 1);
      hide *;
      MoneyStaysSound(env, retries, n - 1);
      WorksOnAcceptedPlans(env, retries, n - 1);
      if !After(env, retries, n - 1).point.Done? {
        StaysAtResource(env, retries, n - 1);
        MoneyStep(env, retries, n - 1, After(env, retries, n - 1));
      }
    }
  }

  /** What was sent in a run never exceeds the funded budget. */
  lemma SentWithinBudget(env: Env, retries: nat, n: nat)
    requires Frugal(env) && Answers(env, 0)
    ensures TotalSent(After(env, retries, n).trace) <= env.plan(0).value.budget
  {
    MoneyStaysSound(env, retries, n);
  }

  /** The guard the loop does not have: what is about to be paid still fits what was not yet sent. */
  predicate Affords(env: Env, retries: nat, n: nat, budget: nat) {
    var r := After(env, retries, n);
    r.point.Paying? && !env.fetch(n).NotSent? ==> TotalSent(r.trace) + r.point.plan.resources[0].amount <= budget
  }

  lemma PayingSends(env: Env, retries: nat, n: nat)
    ensures var r := After(env, retries, n);
      TotalSent(After(env, retries, n + 1).trace)
        == TotalSent(r.trace)
          + if r.point.Paying? && !env.fetch(n).NotSent? then r.point.plan.resources[0].amount else 0
  {
    hide TotalSent;
    var r := After(env, retries, n);
    if !r.point.Done? {
      SentAppended(r.trace, Next(env, retries, n, r.point).1);
    }
  }

  ghost predicate StaysWithin(env: Env, retries: nat, budget: nat) {
    forall n: nat :: TotalSent(After(env, retries, n).trace) <= budget
  }

  ghost predicate AlwaysAffords(env: Env, retries: nat, budget: nat) {
    forall n: nat :: Affords(env, retries, n, budget)
  }

  lemma {:induction false} AffordedStaysWithin(env: Env, retries: nat, n: nat, budget: nat)
    requires AlwaysAffords(env, retries, budget)
    ensures TotalSent(After(env, retries, n).trace) <= budget
  {
    if n == 0 {
      assert After(env, retries, 0) == Run(AskPlan, []);
    } else {
      hide After;
      AffordedStaysWithin(env, retries, n - 1, budget);
      PayingSends(env, retries, n - 1);
      assert Affords(env, retries, n - 1, budget);
    }
  }

  /** Under any ledger, a run stays within an amount exactly when each single payment still fits it. */
  lemma WithinBudgetExactly(env: Env, retries: nat, budget: nat)
    ensures StaysWithin(env, retries, budget) <==> AlwaysAffords(env, retries, budget)
  {
    hide After, TotalSent;
    if AlwaysAffords(env, retries, budget) {
      forall n: nat ensures TotalSent(After(env, retries, n).trace) <= budget {
        AffordedStaysWithin(env, retries, n, budget);
      }
    } else {
      var n: nat :| !Affords(env, retries, n, budget);
      PayingSends(env, retries, n);
      assert TotalSent(After(env, retries, n + 1).trace) > budget;
    }
  }

  // ---- termination ----

  /** At most this many calls are still to come before the next delivery. */
  function Within(retries: nat, p: Point): (d: nat)
    ensures d == 0 <==> p.Done?
  {
    match p
    case AskPlan => retries + 7
    case Verifying(_, _, tries) => retries + 6 - (if tries <= retries then tries else retries)
    case Beginning(_, _) => 5
    case Paying(_, _) => 4
    case Reloading(_) => 3
    case Completing => 2
    case Failing => 1
    case Holding => 1
    case Done(_) => 0
  }

  lemma WithinBound(retries: nat, p: Point)
    ensures Within(retries, p) <= retries + 7
  {
  }

  /** At most this many calls are still to come when each delivery shortens the plan. */
  function Distance(retries: nat, p: Point): nat
    requires AtResource(p)
  {
    (if HasPlan(p) then (|p.plan.resources| - 1) * (retries + 4) else 0) + Within(retries, p)
  }

  /** The reload after the n-th call shows the delivery. */
  predicate Delivers(env: Env, n: nat, p: Point) {
    p.Reloading? && Answers(env, n) && Drops(p.plan, env.plan(n).value)
  }

  lemma CallComesNearer(env: Env, retries: nat, n: nat, p: Point)
    requires AtResource(p) && !p.Done? && !Delivers(env, n, p)
    ensures var after := Next(env, retries, n, p).0;
      Within(retries, after) < Within(retries, p) && (HasPlan(p) && HasPlan(after) ==> after.plan == p.plan)
  {
  }

  lemma Fewer(a: nat, b: nat, per: nat)
    requires a < b
    ensures a * per + per <= b * per
  {
    assert (b - a - 1) * per >= 0;
    assert b * per == a * per + per + (b - a - 1) * per;
  }

  lemma CallComesCloser(env: Env, retries: nat, n: nat, p: Point)
    requires Shortens(env) && AtResource(p) && !p.Done? && !p.AskPlan? && InWork(env, n, p)
    ensures var after := Next(env, retries, n, p).0;
      !after.AskPlan? && Distance(retries, after) < Distance(retries, p)
  {
    hide Shortens, PlanInWork, Accepted, Lists;
    var after := Next(env, retries, n, p).0;
    if Delivers(env, n, p) {
      ReloadShortens(env, n, p.plan);
      if HasPlan(after) {
        Fewer(|after.plan.resources| - 1, |p.plan.resources| - 1, retries + 4);
      } else {
        assert (|p.plan.resources| - 1) * (retries + 4) >= 0;
      }
    } else {
      CallComesNearer(env, retries, n, p);
      if HasPlan(p) {
        assert (|p.plan.resources| - 1) * (retries + 4) >= 0;
      }
    }
  }

  function CallBound(retries: nat, plan: Plan): nat {
    |plan.resources| * (retries + 4) + 2
  }

  /** After `n` calls the run has ended or used up that much of its bound. */
  predicate Closer(retries: nat, p: Point, n: nat, bound: nat)
    requires AtResource(p)
  {
    !p.AskPlan? && (p.Done? || Distance(retries, p) + n <= bound + 1)
  }

  lemma {:induction false} DistanceFalls(env: Env, retries: nat, n: nat)
    requires Shortens(env) && Answers(env, 0) && n >= 1
    ensures Closer(retries, After(env, retries, n).point, n, CallBound(retries, env.plan(0).value))
  {
    if n == 1 {
      FirstDistance(env, retries);
    } else {
      DistanceFalls(env, retries, n - 1);
      CloserStep(env, retries, n - 1, CallBound(retries, env.plan(0).value));
    }
  }

  lemma CloserStep(env: Env, retries: nat, n: nat, bound: nat)
    requires Shortens(env) && Closer(retries, After(env, retries, n).point, n, bound)
    ensures Closer(retries, After(env, retries, n + 1).point, n + 1, bound)
  {
    StepOf(env, retries, n);
    hide After, Next, Distance, Shortens;
    WorksOnAcceptedPlans(env, retries, n);
    if !After(env, retries, n).point.Done? {
      CallComesCloser(env, retries, n, After(env, retries, n).point);
    }
  }

  lemma FirstDistance(env: Env, retries: nat)
    requires Answers(env, 0)
    ensures Closer(retries, After(env, retries, 1).point, 1, CallBound(retries, env.plan(0).value))
  {
    assert After(env, retries, 0) == Run(AskPlan, []);
    StepOf(env, retries, 0);
    var size, per := |env.plan(0).value.resources|, retries + 4;
    assert (size - 1) * per + per == size * per;
  }

  /** With a ledger whose plans shrink the run ends, within a bound read off its first plan. */
  lemma RunTerminates(env: Env, retries: nat, n: nat)
    requires Shortens(env) && Answers(env, 0)
    requires n >= |env.plan(0).value.resources| * (retries + 4) + 4
    ensures After(env, retries, n).point.Done?
  {
    assert |env.plan(0).value.resources| * (retries + 4) >= 0;
    hide After, Shortens, Answers, Distance;
    DistanceFalls(env, retries, n);
  }

  ghost predicate NoDeliveryFrom(env: Env, retries: nat, m: nat) {
    forall n: nat | m <= n :: !Delivers(env, n, After(env, retries, n).point)
  }

  lemma NoneFrom(env: Env, retries: nat, m: nat, n: nat)
    requires NoDeliveryFrom(env, retries, m) && m <= n
    ensures !Delivers(env, n, After(env, retries, n).point)
  {
  }

  lemma NearerStep(env: Env, retries: nat, n: nat)
    requires !Delivers(env, n, After(env, retries, n).point)
    ensures var p, after := After(env, retries, n).point, After(env, retries, n + 1).point;
      after.Done? || Within(retries, after) < Within(retries, p)
  {
    StepOf(env, retries, n);
    StaysAtResource(env, retries, n);
    hide *;
    if !After(env, retries, n).point.Done? {
      CallComesNearer(env, retries, n, After(env, retries, n).point);
    }
  }

  /** Without another delivery from the m-th call on, the run ends soon. */
  lemma {:induction false} EndsWithoutDelivery(env: Env, retries: nat, m: nat, k: nat)
    requires NoDeliveryFrom(env, retries, m)
    ensures var p := After(env, retries, m + k).point;
      p.Done? || Within(retries, p) + k <= Within(retries, After(env, retries, m).point)
  {
    hide *;
    if k > 0 {
      NoneFrom(env, retries, m, m + k - 1);
      EndsWithoutDelivery(env, retries, m, k - 1);
      if After(env, retries, m + k - 1).point.Done? {
        DoneStays(env, retries, m + k - 1);
      } else {
        NearerStep(env, retries, m + k - 1);
      }
    }
  }

  lemma DoneStays(env: Env, retries: nat, n: nat)
    requires After(env, retries, n).point.Done?
    ensures After(env, retries, n + 1).point.Done?
  {
  }

  lemma {:induction false} DoneStaysDone(env: Env, retries: nat, m: nat, n: nat)
    requires After(env, retries, m).point.Done? && m <= n
    ensures After(env, retries, n).point.Done?
    decreases n
  {
    hide *;
    if m < n {
      DoneStaysDone(env, retries, m, n - 1);
      DoneStays(env, retries, n - 1);
    }
  }

  /** Under any ledger, a run ends exactly when only finitely many reloads show a delivery. */
  lemma EndsExactly(env: Env, retries: nat)
    ensures (exists n: nat :: After(env, retries, n).point.Done?)
      <==> (exists m: nat :: NoDeliveryFrom(env, retries, m))
  {
    hide Within, Next, Drops;
    if m: nat :| NoDeliveryFrom(env, retries, m) {
      EndsWithoutDelivery(env, retries, m, retries + 8);
      WithinBound(retries, After(env, retries, m).point);
      assert After(env, retries, m + (retries + 8)).point.Done?;
    }
    if m: nat :| After(env, retries, m).point.Done? {
      forall n: nat | m <= n ensures !Delivers(env, n, After(env, retries, n).point) {
        DoneStaysDone(env, retries, m, n);
      }
      assert NoDeliveryFrom(env, retries, m);
    }
  }

  /** A ledger that replaces a delivered quote by a new one makes the run spend beyond its budget. */
  lemma RelistingBreaksTheBudget() returns (env: Env)
    ensures Answers(env, 0) && env.plan(0).value.budget == 1
    ensures TotalSent(After(env, 0, 8).trace) == 2
  {
    var earlier, other := Resource("first", "old", 1), Resource("second", "new", 1);
    var one, two := Plan(true, 1, [earlier]), Plan(true, 1, [other]);
    env := Env((k: nat) => if k == 0 then Some(one) else if k == 4 then Some(two) else None,
               (k: nat) => true, (k: nat) => true, (k: nat) => Answered(true), (k: nat) => true, (k: nat) => "attempt");
    assert [earlier][..0] == [] && [other][..0] == [];
    assert SumOf([earlier], AmountOf) == 1 && SumOf([other], AmountOf) == 1;
    assert Accepted(one) && Accepted(two) && !Lists(two, "old");
    var paid := Answered(true);
    var t1 := [Planned(Some(one))];
    var t2 := t1 + [Verified("old", true)];
    var t3 := t2 + [Begun("old", "attempt", true)];
    var t4 := t3 + [Paid(earlier, "attempt", paid)];
    var t5 := t4 + [Planned(Some(two))];
    var t6 := t5 + [Verified("new", true)];
    var t7 := t6 + [Begun("new", "attempt", true)];
    CallStep(env, 0, 0, Run(AskPlan, []));
    assert [] + t1 == t1;
    CallStep(env, 0, 1, Run(Verifying(one, "attempt", 0), t1));
    CallStep(env, 0, 2, Run(Beginning(one, "attempt"), t2));
    CallStep(env, 0, 3, Run(Paying(one, "attempt"), t3));
    CallStep(env, 0, 4, Run(Reloading(one), t4));
    CallStep(env, 0, 5, Run(Verifying(two, "attempt", 0), t5));
    CallStep(env, 0, 6, Run(Beginning(two, "attempt"), t6));
    CallStep(env, 0, 7, Run(Paying(two, "attempt"), t7));
    hide After, Accepted, Lists, SumOf;
    SentAppended([], Planned(Some(one)));
    SentAppended(t1, Verified("old", true));
    SentAppended(t2, Begun("old", "attempt", true));
    SentAppended(t3, Paid(earlier, "attempt", paid));
    SentAppended(t4, Planned(Some(two)));
    SentAppended(t5, Verified("new", true));
    SentAppended(t6, Begun("new", "attempt", true));
    SentAppended(t7, Paid(other, "attempt", paid));
  }
}
