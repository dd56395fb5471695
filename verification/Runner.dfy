/**
 * One run of a research job (runResearchJob and reloadPlanAfterPayment in
 * agent-orchestrator/src/runner.ts) against a scripted environment: what the
 * k-th call answers is `env` at k. The nested loops and the exception
 * discipline are the method; the flat machine is its specification.
 */
module Runner {
  import opened Wrappers
  import opened Sorting
  import opened Sums

  type Id = string

  /** A document may be listed under a new quote once its earlier one has expired. */
  datatype Resource = Resource(document: Id, quote: Id, amount: nat)

  /** `sound` stands for the plan's identity, signer, invoice and path checks. */
  datatype Plan = Plan(sound: bool, budget: int, resources: seq<Resource>)

  /** `NotSent` is the error that vouches that nothing left the process. */
  datatype Reply = NotSent | Threw | Answered(ok: bool)

  datatype Env = Env(
    plan: nat -> Option<Plan>,
    verify: nat -> bool,
    begin: nat -> bool,
    fetch: nat -> Reply,
    complete: nat -> bool,
    attemptId: nat -> Id)

  datatype Call =
    | Planned(answer: Option<Plan>)
    | Verified(quote: Id, ok: bool)
    | Begun(quote: Id, attempt: Id, ok: bool)
    | Paid(resource: Resource, attempt: Id, reply: Reply)
    | Completed(ok: bool)
    | Failed
    | Held

  function AmountOf(r: Resource): nat { r.amount }

  /** The invoice check inside assertPlan leaves distinct quotes; then the budget is checked. */
  predicate Accepted(plan: Plan) {
    && plan.sound
    && (forall i, j :: 0 <= i < j < |plan.resources| ==> plan.resources[i].quote != plan.resources[j].quote)
    && plan.budget > 0 && SumOf(plan.resources, AmountOf) <= plan.budget
  }

  predicate Lists(plan: Plan, quote: Id) {
    exists i :: 0 <= i < |plan.resources| && plan.resources[i].quote == quote
  }

  // ---- the machine ----

  datatype Outcome = Success | Rethrown

  /** Where the run stands between two calls; the resource in work is the plan's first. */
  datatype Point =
    | AskPlan
    | Verifying(plan: Plan, attempt: Id, tries: nat)
    | Beginning(plan: Plan, attempt: Id)
    | Paying(plan: Plan, attempt: Id)
    | Reloading(plan: Plan)
    | Completing
    | Failing
    | Holding
    | Done(outcome: Outcome)

  datatype Run = Run(point: Point, trace: seq<Call>)

  predicate AtResource(p: Point) {
    (p.Verifying? || p.Beginning? || p.Paying? || p.Reloading?) ==> |p.plan.resources| > 0
  }

  /** The head of the outer loop: no resource left means complete, else a new attempt id. */
  function Head(env: Env, k: nat, plan: Plan): (p: Point)
    ensures AtResource(p)
  {
    if |plan.resources| == 0 then Completing else Verifying(plan, env.attemptId(k), 0)
  }

  /** One call: the next point and the record of the call. */
  function Next(env: Env, retries: nat, k: nat, p: Point): (r: (Point, Call))
    requires AtResource(p) && !p.Done?
    ensures AtResource(r.0)
  {
    match p
    case AskPlan =>
      var answer := env.plan(k);
      (if answer.Some? && Accepted(answer.value) then Head(env, k + 1, answer.value) else Failing, Planned(answer))
    case Verifying(plan, attempt, tries) =>
      var ok := env.verify(k);
      (if ok then Beginning(plan, attempt) else if tries >= retries then Failing
        else Verifying(plan, attempt, tries + 1),
       Verified(plan.resources[0].quote, ok))
    case Beginning(plan, attempt) =>
      var ok := env.begin(k);
      (if ok then Paying(plan, attempt) else Failing, Begun(plan.resources[0].quote, attempt, ok))
    case Paying(plan, attempt) =>
      var reply := env.fetch(k);
      (if reply.NotSent? then Done(Rethrown) else Reloading(plan), Paid(plan.resources[0], attempt, reply))
    case Reloading(plan) =>
      var answer := env.plan(k);
      (if answer.Some? && Accepted(answer.value) && !Lists(answer.value, plan.resources[0].quote)
       then Head(env, k + 1, answer.value) else Holding, Planned(answer))
    case Completing =>
      var ok := env.complete(k);
      (if ok then Done(Success) else Failing, Completed(ok))
    case Failing => (Done(Rethrown), Failed)
    case Holding => (Done(Rethrown), Held)
  }

  /** The run after `n` calls; a finished run stays finished. */
  function After(env: Env, retries: nat, n: nat): (r: Run)
    ensures AtResource(r.point)
  {
    if n == 0 then Run(AskPlan, [])
    else
      var before := After(env, retries, n - 1);
      if before.point.Done? then before
      else
        var (point, call) := Next(env, retries, n - 1, before.point);
        Run(point, before.trace + [call])
  }

  // ---- the loops of the original ----

  datatype Exit = OutOfFuel | NotSentError | AmbiguousError | OtherError | Fine

  /** Where an exit of the try block leaves the machine. */
  predicate ExitPoint(exit: Exit, p: Point) {
    match exit
    case OutOfFuel => !p.Done?
    case NotSentError => p == Done(Rethrown)
    case AmbiguousError => p == Holding
    case OtherError => p == Failing
    case Fine => p == Done(Success)
  }

  method RunResearchJob(env: Env, retries: nat, fuel: nat) returns (trace: seq<Call>, finished: bool, calls: nat)
    ensures calls <= fuel && trace == After(env, retries, calls).trace
    ensures finished <==> After(env, retries, calls).point.Done?
    ensures !finished ==> calls == fuel
  {
    hide Next;
    var exit;
    exit, trace, calls := TryBlock(env, retries, fuel);
    if exit == OutOfFuel {
      return trace, false, calls;
    }
    if exit == Fine || exit == NotSentError {
      return trace, true, calls;
    }
    if calls == fuel {
      return trace, false, calls;
    }
    PersistStep(env, retries, calls);
    trace := trace + [if exit == AmbiguousError then Held else Failed];
    return trace, true, calls + 1;
  }

  lemma PersistStep(env: Env, retries: nat, n: nat)
    requires var p := After(env, retries, n).point; p == Failing || p == Holding
    ensures var before := After(env, retries, n);
      After(env, retries, n + 1)
        == Run(Done(Rethrown), before.trace + [if before.point == Holding then Held else Failed])
  {
  }

  lemma CallStep(env: Env, retries: nat, n: nat, before: Run)
    requires After(env, retries, n) == before && !before.point.Done?
    ensures var (point, call) := Next(env, retries, n, before.point);
      After(env, retries, n + 1) == Run(point, before.trace + [call])
  {
  }

  method TryBlock(env: Env, retries: nat, fuel: nat) returns (exit: Exit, trace: seq<Call>, calls: nat)
    ensures calls <= fuel && (exit == OutOfFuel ==> calls == fuel)
    ensures trace == After(env, retries, calls).trace && ExitPoint(exit, After(env, retries, calls).point)
  {
    trace, calls := [], 0;
    if fuel == 0 {
      return OutOfFuel, trace, calls;
    }
    CallStep(env, retries, 0, Run(AskPlan, []));
    hide After;
    var answer := env.plan(0);
    trace, calls := [Planned(answer)], 1;
    if answer.None? || !Accepted(answer.value) {
      return OtherError, trace, calls;
    }
    var plan := answer.value;
    while |plan.resources| > 0
      invariant calls <= fuel
      invariant After(env, retries, calls) == Run(Head(env, calls, plan), trace)
      decreases fuel - calls
    {
      exit, trace, calls, plan := DeliverFirst(env, retries, fuel, plan, trace, calls);
      if exit != Fine {
        return;
      }
    }
    if calls == fuel {
      return OutOfFuel, trace, calls;
    }
    CallStep(env, retries, calls, Run(Completing, trace));
    var ok := env.complete(calls);
    trace, calls := trace + [Completed(ok)], calls + 1;
    return if ok then Fine else OtherError, trace, calls;
  }

  /** One pass of the outer loop, with its bounded verification retries; Fine means delivered. */
  method DeliverFirst(env: Env, retries: nat, fuel: nat, plan: Plan, before: seq<Call>, made: nat)
    returns (exit: Exit, trace: seq<Call>, calls: nat, reloaded: Plan)
    requires |plan.resources| > 0 && made <= fuel
    requires After(env, retries, made) == Run(Head(env, made, plan), before)
    ensures calls <= fuel && (exit == OutOfFuel ==> calls == fuel) && (exit == Fine ==> calls > made)
    ensures exit == Fine ==> After(env, retries, calls) == Run(Head(env, calls, reloaded), trace)
    ensures exit != Fine ==>
      trace == After(env, retries, calls).trace && ExitPoint(exit, After(env, retries, calls).point)
  {
    hide After;
    var resource := plan.resources[0];
    var paymentAttemptId := env.attemptId(made);
    trace, calls, reloaded := before, made, plan;
    var delivered := false;
    var attempt := 0;
    while attempt <= retries && !delivered
      invariant attempt <= retries && !delivered && made <= calls <= fuel && reloaded == plan
      invariant After(env, retries, calls) == Run(Verifying(plan, paymentAttemptId, attempt), trace)
      decreases retries - attempt
    {
      if calls == fuel { return OutOfFuel, trace, calls, reloaded; }
      CallStep(env, retries, calls, Run(Verifying(plan, paymentAttemptId, attempt), trace));
      var verified := env.verify(calls);
      trace, calls := trace + [Verified(resource.quote, verified)], calls + 1;
      if !verified {
        if attempt == retries { return OtherError, trace, calls, reloaded; }
        attempt := attempt + 1;
        continue;
      }

      if calls == fuel { return OutOfFuel, trace, calls, reloaded; }
      CallStep(env, retries, calls, Run(Beginning(plan, paymentAttemptId), trace));
      var begun := env.begin(calls);
      trace, calls := trace + [Begun(resource.quote, paymentAttemptId, begun)], calls + 1;
      if !begun { return OtherError, trace, calls, reloaded; }

      if calls == fuel { return OutOfFuel, trace, calls, reloaded; }
      CallStep(env, retries, calls, Run(Paying(plan, paymentAttemptId), trace));
      var reply := env.fetch(calls);
      trace, calls := trace + [Paid(resource, paymentAttemptId, reply)], calls + 1;
      if reply.NotSent? { return NotSentError, trace, calls, reloaded; }

      if calls == fuel { return OutOfFuel, trace, calls, reloaded; }
      CallStep(env, retries, calls, Run(Reloading(plan), trace));
      var answer := env.plan(calls);
      trace, calls := trace + [Planned(answer)], calls + 1;
      if answer.None? || !Accepted(answer.value) || Lists(answer.value, resource.quote) {
        return AmbiguousError, trace, calls, reloaded;
      }
      reloaded := answer.value;
      delivered := true;
      break;
    }
    exit := if delivered then Fine else OtherError;
  }
}
