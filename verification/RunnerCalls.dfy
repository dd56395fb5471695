/**
 * Which calls a run of a research job makes, told from the calls before them
 * and the answers alone: together with the calls that end a run this determines
 * every trace. Then what becomes of a resource whose challenge is checked.
 */
module RunnerCalls {
  import opened Wrappers
  import opened Sums
  import opened Runner

  /** The i-th call answers with an acceptable plan that shows the payment before it as delivered. */
  predicate Opens(trace: seq<Call>, i: nat) {
    && i < |trace| && trace[i].Planned? && trace[i].answer.Some? && Accepted(trace[i].answer.value)
    && (i > 0 ==> trace[i - 1].Paid? && !Lists(trace[i].answer.value, trace[i - 1].resource.quote))
  }

  /** The plan opened at `m` lists something first. */
  predicate Works(trace: seq<Call>, m: nat) {
    Opens(trace, m) && |trace[m].answer.value.resources| > 0
  }

  function FirstOf(trace: seq<Call>, m: nat): Resource
    requires Works(trace, m)
  {
    trace[m].answer.value.resources[0]
  }

  /** Between the plan opened at `m` and `here`, at most `most` checks of its first quote, all failed. */
  predicate Checking(most: nat, trace: seq<Call>, m: nat, here: nat) {
    && m < here <= |trace| && here - m - 1 <= most && Works(trace, m)
    && forall k :: m < k < here ==> trace[k] == Verified(FirstOf(trace, m).quote, false)
  }

  /** The call at `i` is a check of the plan opened at `m` that succeeded within the retries. */
  predicate Checked(retries: nat, trace: seq<Call>, m: nat, i: nat) {
    i < |trace| && Checking(retries, trace, m, i) && trace[i] == Verified(FirstOf(trace, m).quote, true)
  }

  /** The check at `i` clears this resource to be paid for under this attempt id. */
  ghost predicate Clears(env: Env, retries: nat, trace: seq<Call>, i: int, resource: Resource, attempt: Id) {
    i >= 0 && exists m: nat ::
      Checked(retries, trace, m, i) && resource == FirstOf(trace, m) && attempt == env.attemptId(m + 1)
  }

  ghost predicate ClearsQuote(env: Env, retries: nat, trace: seq<Call>, i: int, quote: Id, attempt: Id) {
    exists resource :: Clears(env, retries, trace, i, resource, attempt) && resource.quote == quote
  }

  /** Where a call may stand, which quote, resource and attempt id it names and which answer it met. */
  ghost predicate Placed(env: Env, retries: nat, trace: seq<Call>, i: nat)
    requires i < |trace|
  {
    match trace[i]
    case Planned(answer) =>
      answer == env.plan(i) && (i > 0 ==> trace[i - 1].Paid? && trace[i - 1].reply != NotSent)
    case Verified(quote, ok) =>
      ok == env.verify(i) && exists m: nat :: Checking(retries, trace, m, i) && quote == FirstOf(trace, m).quote
    case Begun(quote, attempt, ok) =>
      ok == env.begin(i) && ClearsQuote(env, retries, trace, i - 1, quote, attempt)
    case Paid(resource, attempt, reply) =>
      && reply == env.fetch(i) && Clears(env, retries, trace, i - 2, resource, attempt)
      && trace[i - 1] == Begun(resource.quote, attempt, true)
    case Completed(ok) =>
      ok == env.complete(i) && i > 0 && Opens(trace, i - 1) && trace[i - 1].answer.value.resources == []
    case Failed => Gives(retries, trace, i)
    case Held => i > 1 && trace[i - 2].Paid? && trace[i - 1].Planned? && !Opens(trace, i - 1)
  }

  /** Why a run fails with nothing paid for: a bad first plan, no check left, a refused begin or end. */
  predicate Gives(retries: nat, trace: seq<Call>, i: nat)
    requires i <= |trace|
  {
    i > 0 &&
    match trace[i - 1]
    case Planned(_) => i == 1 && !Opens(trace, 0)
    case Verified(_, _) => i > retries + 1 && Checking(retries + 1, trace, i - 2 - retries, i)
    case Begun(_, _, ok) => !ok
    case Completed(ok) => !ok
    case _ => false
  }

  /** The calls that end a run. */
  predicate Final(call: Call) {
    call.Failed? || call.Held? || call == Completed(true) || (call.Paid? && call.reply == NotSent)
  }

  // ---- the machine keeps to it ----

  /** The point of the machine, told from the calls so far. */
  ghost predicate Located(env: Env, retries: nat, r: Run) {
    var n := |r.trace|;
    match r.point
    case AskPlan => n == 0
    case Verifying(plan, attempt, tries) =>
      && tries < n && attempt == env.attemptId(n - tries)
      && Checking(retries, r.trace, n - 1 - tries, n) && r.trace[n - 1 - tries].answer.value == plan
    case Beginning(plan, attempt) =>
      |plan.resources| > 0 && Clears(env, retries, r.trace, n - 1, plan.resources[0], attempt)
    case Paying(plan, attempt) =>
      && |plan.resources| > 0 && Clears(env, retries, r.trace, n - 2, plan.resources[0], attempt)
      && r.trace[n - 1] == Begun(plan.resources[0].quote, attempt, true)
    case Reloading(plan) =>
      && n > 0 && |plan.resources| > 0 && r.trace[n - 1].Paid?
      && r.trace[n - 1].resource == plan.resources[0] && r.trace[n - 1].reply != NotSent
    case Completing => n > 0 && Opens(r.trace, n - 1) && r.trace[n - 1].answer.value.resources == []
    case Failing => Gives(retries, r.trace, n)
    case Holding => n > 1 && r.trace[n - 2].Paid? && r.trace[n - 1].Planned? && !Opens(r.trace, n - 1)
    case Done(outcome) => n > 0 && Final(r.trace[n - 1]) && (outcome == Success <==> r.trace[n - 1].Completed?)
  }

  /** What a call may be depends on the calls before it only. */
  predicate Agree(a: seq<Call>, b: seq<Call>, n: nat) {
    n <= |a| && n <= |b| && forall k :: 0 <= k < n ==> a[k] == b[k]
  }

  lemma SameChecks(most: nat, a: seq<Call>, b: seq<Call>, m: nat, here: nat)
    requires Agree(a, b, here) && Checking(most, a, m, here)
    ensures Checking(most, b, m, here) && FirstOf(b, m) == FirstOf(a, m)
  {
  }

  lemma SameClears(env: Env, retries: nat, a: seq<Call>, b: seq<Call>, i: int, resource: Resource, attempt: Id)
    requires Agree(a, b, if i < 0 then 0 else i + 1) && Clears(env, retries, a, i, resource, attempt)
    ensures Clears(env, retries, b, i, resource, attempt)
  {
    var m: nat :| Checked(retries, a, m, i) && resource == FirstOf(a, m) && attempt == env.attemptId(m + 1);
    SameChecks(retries, a, b, m, i);
    assert Checked(retries, b, m, i);
  }

  lemma SamePlaced(env: Env, retries: nat, a: seq<Call>, b: seq<Call>, i: nat)
    requires i < |a| && Agree(a, b, i + 1) && Placed(env, retries, a, i)
    ensures Placed(env, retries, b, i)
  {
    hide Clears, Accepted;
    match a[i]
    case Planned(_) =>
    case Verified(quote, _) =>
      var m: nat :| Checking(retries, a, m, i) && quote == FirstOf(a, m).quote;
      SameChecks(retries, a, b, m, i);
    case Begun(quote, attempt, _) =>
      var resource :| Clears(env, retries, a, i - 1, resource, attempt) && resource.quote == quote;
      SameClears(env, retries, a, b, i - 1, resource, attempt);
    case Paid(resource, attempt, _) => SameClears(env, retries, a, b, i - 2, resource, attempt);
    case Completed(_) =>
    case Failed =>
      if a[i - 1].Verified? {
        SameChecks(retries + 1, a, b, i - 2 - retries, i);
      }
    case Held =>
  }

  /** One call lands where the machine then stands, and stands where it may. */
  lemma CallIsPlaced(env: Env, retries: nat, r: Run)
    requires AtResource(r.point) && !r.point.Done? && Located(env, retries, r)
    ensures var (point, call) := Next(env, retries, |r.trace|, r.point);
      Located(env, retries, Run(point, r.trace + [call])) && Placed(env, retries, r.trace + [call], |r.trace|)
  {
    match r.point
    case Verifying(plan, attempt, tries) =>
      hide Next, Located, Placed;
      VerifyIsPlaced(env, retries, r, plan, attempt, tries);
    case Beginning(plan, attempt) =>
      hide Next, Located, Placed;
      BeginIsPlaced(env, retries, r, plan, attempt);
    case Paying(plan, attempt) =>
      hide Next, Located, Placed;
      PayIsPlaced(env, retries, r, plan, attempt);
    case _ =>
      hide Next, Located, Placed;
      RestIsPlaced(env, retries, r);
  }

  lemma RestIsPlaced(env: Env, retries: nat, r: Run)
    requires !r.point.Verifying? && !r.point.Beginning? && !r.point.Paying? && !r.point.Done?
    requires AtResource(r.point) && Located(env, retries, r)
    ensures var (point, call) := Next(env, retries, |r.trace|, r.point);
      Located(env, retries, Run(point, r.trace + [call])) && Placed(env, retries, r.trace + [call], |r.trace|)
  {
    hide Clears;
    var (_, call) := Next(env, retries, |r.trace|, r.point);
    var longer := r.trace + [call];
    assert forall k :: 0 <= k < |r.trace| ==> longer[k] == r.trace[k];
  }

  lemma BeginIsPlaced(env: Env, retries: nat, r: Run, plan: Plan, attempt: Id)
    requires r.point == Beginning(plan, attempt) && AtResource(r.point) && Located(env, retries, r)
    ensures var (point, call) := Next(env, retries, |r.trace|, r.point);
      Located(env, retries, Run(point, r.trace + [call])) && Placed(env, retries, r.trace + [call], |r.trace|)
  {
    var n := |r.trace|;
    var (point, call) := Next(env, retries, n, r.point);
    SameClears(env, retries, r.trace, r.trace + [call], n - 1, plan.resources[0], attempt);
    hide Clears;
    assert ClearsQuote(env, retries, r.trace + [call], n - 1, plan.resources[0].quote, attempt);
  }

  lemma PayIsPlaced(env: Env, retries: nat, r: Run, plan: Plan, attempt: Id)
    requires r.point == Paying(plan, attempt) && AtResource(r.point) && Located(env, retries, r)
    ensures var (point, call) := Next(env, retries, |r.trace|, r.point);
      Located(env, retries, Run(point, r.trace + [call])) && Placed(env, retries, r.trace + [call], |r.trace|)
  {
    hide Accepted, Lists;
    var n := |r.trace|;
    var (point, call) := Next(env, retries, n, r.point);
    SameClears(env, retries, r.trace, r.trace + [call], n - 2, plan.resources[0], attempt);
    hide Clears;
  }

  lemma VerifyIsPlaced(env: Env, retries: nat, r: Run, plan: Plan, attempt: Id, tries: nat)
    requires r.point == Verifying(plan, attempt, tries) && AtResource(r.point) && Located(env, retries, r)
    ensures var (point, call) := Next(env, retries, |r.trace|, r.point);
      Located(env, retries, Run(point, r.trace + [call])) && Placed(env, retries, r.trace + [call], |r.trace|)
  {
    var n := |r.trace|;
    var m: nat := n - 1 - tries;
    var (point, call) := Next(env, retries, n, r.point);
    var longer := r.trace + [call];
    assert forall k :: 0 <= k < n ==> longer[k] == r.trace[k];
    SameChecks(retries, r.trace, longer, m, n);
    if env.verify(n) {
      assert Checked(retries, longer, m, n);
    }
  }

  /** Every call of every run stands where it may. */
  lemma {:induction false} EveryCallIsPlaced(env: Env, retries: nat, n: nat)
    ensures var r := After(env, retries, n);
      Located(env, retries, r) && forall i :: 0 <= i < |r.trace| ==> Placed(env, retries, r.trace, i)
    ensures !After(env, retries, n).point.Done? ==> |After(env, retries, n).trace| == n
  {
    if n > 0 {
      EveryCallIsPlaced(env, retries, n - 1);
      var before := After(env, retries, n - 1);
      if !before.point.Done? {
        CallIsPlaced(env, retries, before);
        var (point, call) := Next(env, retries, n - 1, before.point);
        assert After(env, retries, n) == Run(point, before.trace + [call]);
        hide Next, After, Located, Placed;
        forall i | 0 <= i < n ensures Placed(env, retries, before.trace + [call], i) {
          if i < n - 1 {
            SamePlaced(env, retries, before.trace, before.trace + [call], i);
          }
        }
      }
    }
  }

  /** A run is over exactly when its last call is a final one, and it succeeds only by completing. */
  lemma OverExactly(env: Env, retries: nat, n: nat)
    ensures var r := After(env, retries, n);
      && (r.point.Done? <==> |r.trace| > 0 && Final(r.trace[|r.trace| - 1]))
      && (r.point == Done(Success) <==> |r.trace| > 0 && r.trace[|r.trace| - 1] == Completed(true))
  {
    EveryCallIsPlaced(env, retries, n);
  }

  // ---- and nothing else does ----

  /** A trace as the placing of its calls allows it, going on after no final call. */
  ghost predicate Possible(env: Env, retries: nat, trace: seq<Call>) {
    && (forall i :: 0 <= i < |trace| ==> Placed(env, retries, trace, i))
    && forall i :: 0 <= i < |trace| - 1 ==> !Final(trace[i])
  }

  lemma OnePlanInWork(most: nat, least: nat, trace: seq<Call>, m: nat, k: nat, here: nat)
    requires Checking(most, trace, m, here) && Checking(least, trace, k, here)
    ensures m == k
  {
    assert trace[m].Planned? && trace[k].Planned?;
  }

  lemma OneClearance(env: Env, retries: nat, trace: seq<Call>, i: int, r: Resource, a: Id, s: Resource, b: Id)
    requires Clears(env, retries, trace, i, r, a) && Clears(env, retries, trace, i, s, b)
    ensures r == s && a == b
  {
    var m: nat :| Checked(retries, trace, m, i) && r == FirstOf(trace, m) && a == env.attemptId(m + 1);
    var k: nat :| Checked(retries, trace, k, i) && s == FirstOf(trace, k) && b == env.attemptId(k + 1);
    OnePlanInWork(retries, retries, trace, m, k, i);
  }

  lemma OneCallFits(env: Env, retries: nat, trace: seq<Call>, c: Call, d: Call)
    requires |trace| > 0 ==> !Final(trace[|trace| - 1])
    requires Placed(env, retries, trace + [c], |trace|) && Placed(env, retries, trace + [d], |trace|)
    ensures c == d
  {
    hide Accepted, Lists;
    var n := |trace|;
    assert forall k :: 0 <= k < n ==> (trace + [c])[k] == trace[k] == (trace + [d])[k];
  }

  /** A trace so allowed is the beginning of the run, call for call. */
  lemma {:induction false} PossibleIsTheRun(env: Env, retries: nat, trace: seq<Call>)
    requires Possible(env, retries, trace)
    ensures After(env, retries, |trace|).trace == trace
  {
    if |trace| > 0 {
      var n := |trace| - 1;
      var shorter := trace[..n];
      forall i | 0 <= i < n ensures Placed(env, retries, shorter, i) {
        SamePlaced(env, retries, trace, shorter, i);
      }
      PossibleIsTheRun(env, retries, shorter);
      EveryCallIsPlaced(env, retries, n);
      EveryCallIsPlaced(env, retries, n + 1);
      var r := After(env, retries, n);
      var (_, call) := Next(env, retries, n, r.point);
      assert trace == shorter + [trace[n]];
      OneCallFits(env, retries, shorter, trace[n], call);
    }
  }

  // ---- what becomes of a resource ----

  /** The first `t` checks of the resource a plan was just opened for all fail. */
  predicate FailFrom(env: Env, n: nat, t: nat) {
    forall k :: n <= k < n + t ==> !env.verify(k)
  }

  function FailedChecks(quote: Id, t: nat): seq<Call> {
    seq(t, _ => Verified(quote, false))
  }

  /** The run's n calls ended with the plan whose first resource comes next. */
  predicate TakesUp(env: Env, retries: nat, n: nat) {
    var r := After(env, retries, n);
    n > 0 && !r.point.Done? && Works(r.trace, n - 1)
  }

  lemma StartsChecking(env: Env, retries: nat, n: nat)
    requires TakesUp(env, retries, n)
    ensures var r := After(env, retries, n);
      r.point == Verifying(r.trace[n - 1].answer.value, env.attemptId(n), 0)
  {
    EveryCallIsPlaced(env, retries, n);
    hide After;
  }

  /** The run `t` failed checks after it took up the resource. */
  function StillChecking(env: Env, retries: nat, n: nat, t: nat): Run
    requires TakesUp(env, retries, n)
  {
    var trace := After(env, retries, n).trace;
    Run(Verifying(trace[n - 1].answer.value, env.attemptId(n), t),
        trace + FailedChecks(FirstOf(trace, n - 1).quote, t))
  }

  lemma {:induction false} ChecksGoOn(env: Env, retries: nat, n: nat, t: nat)
    requires TakesUp(env, retries, n) && t <= retries && FailFrom(env, n, t)
    ensures After(env, retries, n + t) == StillChecking(env, retries, n, t)
  {
    hide After, TakesUp, Works, Next, Opens;
    if t == 0 {
      StartsChecking(env, retries, n);
      assert After(env, retries, n).trace + [] == After(env, retries, n).trace;
    } else {
      ChecksGoOn(env, retries, n, t - 1);
      CheckFails(env, retries, n, t);
    }
  }

  lemma CheckFails(env: Env, retries: nat, n: nat, t: nat)
    requires TakesUp(env, retries, n) && 0 < t <= retries && !env.verify(n + t - 1)
    requires After(env, retries, n + t - 1) == StillChecking(env, retries, n, t - 1)
    ensures After(env, retries, n + t) == StillChecking(env, retries, n, t)
  {
    hide After, Works;
    CallStep(env, retries, n + t - 1, StillChecking(env, retries, n, t - 1));
    var quote := FirstOf(After(env, retries, n).trace, n - 1).quote;
    assert FailedChecks(quote, t) == FailedChecks(quote, t - 1) + [Verified(quote, false)];
  }

  lemma CheckSucceeds(env: Env, retries: nat, n: nat, t: nat)
    requires TakesUp(env, retries, n) && t <= retries && env.verify(n + t)
    requires After(env, retries, n + t) == StillChecking(env, retries, n, t)
    ensures var trace := After(env, retries, n).trace;
      var quote := FirstOf(trace, n - 1).quote;
      After(env, retries, n + t + 1)
        == Run(Beginning(trace[n - 1].answer.value, env.attemptId(n)),
               trace + FailedChecks(quote, t) + [Verified(quote, true)])
  {
    hide After, FailedChecks;
    CallStep(env, retries, n + t, StillChecking(env, retries, n, t));
  }

  /** The first check that succeeds within the retries starts the payment, under the id drawn for the resource. */
  lemma GoodCheckBegins(env: Env, retries: nat, n: nat, t: nat)
    requires TakesUp(env, retries, n) && t <= retries && FailFrom(env, n, t) && env.verify(n + t)
    ensures var trace := After(env, retries, n).trace;
      var quote := FirstOf(trace, n - 1).quote;
      After(env, retries, n + t + 2).trace == trace + FailedChecks(quote, t)
        + [Verified(quote, true), Begun(quote, env.attemptId(n), env.begin(n + t + 1))]
  {
    hide After, FailedChecks, StillChecking, FailFrom;
    ChecksGoOn(env, retries, n, t);
    CheckSucceeds(env, retries, n, t);
    CallStep(env, retries, n + t + 1, After(env, retries, n + t + 1));
  }

  lemma LastCheckFails(env: Env, retries: nat, n: nat)
    requires TakesUp(env, retries, n) && !env.verify(n + retries)
    requires After(env, retries, n + retries) == StillChecking(env, retries, n, retries)
    ensures var trace := After(env, retries, n).trace;
      After(env, retries, n + retries + 1)
        == Run(Failing, trace + FailedChecks(FirstOf(trace, n - 1).quote, retries + 1))
  {
    hide After, Works;
    CallStep(env, retries, n + retries, StillChecking(env, retries, n, retries));
    var quote := FirstOf(After(env, retries, n).trace, n - 1).quote;
    assert FailedChecks(quote, retries + 1) == FailedChecks(quote, retries) + [Verified(quote, false)];
  }

  /** Without one the run fails with no payment begun for the resource. */
  lemma NoGoodCheckFails(env: Env, retries: nat, n: nat)
    requires TakesUp(env, retries, n) && FailFrom(env, n, retries + 1)
    ensures var trace := After(env, retries, n).trace;
      After(env, retries, n + retries + 2)
        == Run(Done(Rethrown), trace + FailedChecks(FirstOf(trace, n - 1).quote, retries + 1) + [Failed])
  {
    hide After, Works, FailedChecks, StillChecking;
    ChecksGoOn(env, retries, n, retries);
    LastCheckFails(env, retries, n);
    PersistStep(env, retries, n + retries + 1);
  }

  // ---- which plans are worked on ----

  /** The plan's own checks passed, it names each quote once, and all of it fits into a budget there is. */
  predicate Good(plan: Plan) {
    && plan.sound && plan.budget > 0 && SumOf(plan.resources, AmountOf) <= plan.budget
    && forall i, j :: 0 <= i < |plan.resources| && 0 <= j < |plan.resources| && i != j ==>
         plan.resources[i].quote != plan.resources[j].quote
  }

  /** Whatever is paid for is the first resource of a good plan the run was answered with. */
  lemma PaidUnderGoodPlan(env: Env, retries: nat, n: nat, i: nat) returns (m: nat)
    requires i < |After(env, retries, n).trace| && After(env, retries, n).trace[i].Paid?
    ensures var trace := After(env, retries, n).trace;
      && m < i && trace[m].Planned? && trace[m].answer == env.plan(m) && trace[m].answer.Some?
      && Good(trace[m].answer.value) && |trace[m].answer.value.resources| > 0
      && trace[i].resource == trace[m].answer.value.resources[0]
  {
    EveryCallIsPlaced(env, retries, n);
    hide After, Located;
    var trace := After(env, retries, n).trace;
    assert Placed(env, retries, trace, i);
    m :| Checked(retries, trace, m, i - 2) && trace[i].resource == FirstOf(trace, m);
    assert Placed(env, retries, trace, m);
  }

  /** A run gives up after its first answer exactly when that is not a good plan. */
  lemma FirstPlanExactly(env: Env, retries: nat)
    ensures After(env, retries, 2).trace == [Planned(env.plan(0)), Failed]
      <==> env.plan(0).None? || !Good(env.plan(0).value)
  {
    CallStep(env, retries, 0, Run(AskPlan, []));
    var r := After(env, retries, 1);
    CallStep(env, retries, 1, r);
    hide After, SumOf;
  }
}
