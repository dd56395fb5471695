/**
 * The durable payment protocol as a whole: transport fences, reconciliation
 * passes, the ledger, the chain and crashes, interleaved in any order
 * (agent-orchestrator/src/{runner,durable-pay-client,pay-sh-reconciler,main}.ts
 * over backend/src/store.rs).
 *
 * What is assumed of the outside world is in `World` and in the guards of the
 * chain events and of `Truthful`: a message executes at most once and never
 * after its blockhash expired; one configured RPC origin never lies, though
 * its view of the chain may lag, and its view never moves backwards.
 */
module Protocol {
  import opened Wrappers
  import opened Sums
  import opened Reconciler
  import opened Ledger

  datatype Landing = Landing(slot: nat, ok: bool, signature: Signature)

  datatype Chain = Chain(landed: map<Message, Landing>, expired: map<Blockhash, nat>, height: nat)

  /** `token` reads the blockhash out of a signed message; `truth` indexes the origin that never lies. */
  datatype World = World(origins: nat, truth: nat, token: Message -> Blockhash)

  /** One paid request inside the transport fence, before or after its prepare call committed. */
  datatype Fence =
    | Entered(job: Option<Id>, attempt: Id, quote: Id, message: Message, blockhash: Blockhash)
    | MaySend(message: Message)

  datatype Phase =
    | Listed
    | Scanned(scans: seq<ScanResult>)
    | Checked(earlier: seq<ScanResult>, views: seq<Option<bool>>)

  /** A pass works on the attempt row it listed, however stale that row becomes. */
  datatype Pass = Pass(attempt: Id, row: Attempt, listView: nat, phase: Phase)

  /** `accepted` is the first plan of a job that a worker found within the job's budget. */
  datatype State = State(
    ledger: Ledger,
    chain: Chain,
    fences: map<Id, Fence>,
    network: set<Message>,
    passes: map<Id, Pass>,
    truthView: nat,
    now: nat,
    accepted: map<Id, seq<Id>>)

  datatype JobEvent =
    | NewJob(job: Id, documents: seq<Document>)
    | MintQuote(quote: Id, document: Id, amount: nat, expiresAt: nat)
    | PlanJob(job: Id)
    | ListFor(job: Id, quote: Id)
    | Bind(quote: Id)
    | BeginPayment(job: Id, quote: Id, attempt: Id)
    | HoldJob(job: Id)
    | FailJob(job: Id, prepaid: bool)
    | CompleteJob(job: Id)

  datatype FenceEvent = Enters(entered: Fence) | Prepares(responseLost: bool) | Sends | FenceCrashes

  datatype PassEvent =
    | Lists(attempt: Id)
    | Scans(scans: seq<ScanResult>, startView: nat)
    | Checks(views: seq<Option<bool>>, readView: nat)
    | Acts
    | Defers
    | PassCrashes

  datatype ChainEvent =
    | Tick(time: nat)
    | Land(message: Message, ok: bool, signature: Signature)
    | Expire(blockhash: Blockhash)
    | TruthCatchesUp(view: nat)

  datatype Event =
    | OnJob(jobEvent: JobEvent)
    | OnFence(fence: Id, fenceEvent: FenceEvent)
    | OnPass(pass: Id, passEvent: PassEvent)
    | OnChain(chainEvent: ChainEvent)
    | GatewayDelivers(attempt: Id)
    | AcceptPlan(job: Id, quotes: seq<Id>)

  predicate ValidWorld(w: World) {
    w.truth < w.origins
  }

  /** What the origin that never lies may answer about `m`, given that its scan began at view `v`. */
  predicate TruthfulScan(r: ScanResult, m: Message, c: Chain, v: nat) {
    match r
    case FoundSettled(s) => m in c.landed && c.landed[m].ok && c.landed[m].signature == s
    case FoundFailed(s) => m in c.landed && !c.landed[m].ok && c.landed[m].signature == s
    case Absent => !(m in c.landed && c.landed[m].slot <= v)
    case Inconclusive => true
  }

  predicate TruthfulBlockhash(answer: Option<bool>, b: Blockhash, c: Chain, v: nat) {
    answer == Some(false) ==> b in c.expired && c.expired[b] <= v
  }

  /** Deferring is the answer to every error of a pass; when even that is refused nothing changes. */
  function DeferOrLeave(l: Ledger, attempt: Id, now: nat): Ledger {
    var r := DeferAttempt(l, attempt, false, now);
    if r.Ok? then r.value else l
  }

  function PrepareFenced(l: Ledger, f: Fence, now: nat): Result<Ledger, Refusal>
    requires f.Entered?
  {
    if f.job.Some? then Prepare(l, f.job.value, f.attempt, f.quote, f.message, f.blockhash, now)
    else PrepareDirect(l, f.attempt, f.quote, f.message, f.blockhash, now)
  }

  /** The rows that reach the chain scan carry bytes whose own blockhash is the recorded one. */
  predicate Scannable(w: World, row: Attempt) {
    row.status != Claimed && row.message.Some? && w.token(row.message.value) == row.blockhash
  }

  /** Whether a pass has seen all it needs; otherwise its next step is another RPC round. */
  predicate Decided(w: World, p: Pass) {
    match p.phase
    case Listed => !Scannable(w, p.row)
    case Scanned(scans) => AfterScans(scans) != AskBlockhash
    case Checked(_, _) => true
  }

  /** The ledger call a decided pass makes for what it has seen. */
  function Act(w: World, l: Ledger, p: Pass, now: nat): Result<Ledger, Refusal>
    requires Decided(w, p)
  {
    match p.phase
    case Listed =>
      if p.row.status == Claimed then ReleaseAttempt(l, p.attempt, Claimed, now)
      else DeferAttempt(l, p.attempt, false, now)
    case Scanned(scans) =>
      (match AfterScans(scans)
       case Settle(signature) => SettleAttempt(l, p.attempt, signature)
       case Defer => DeferAttempt(l, p.attempt, false, now))
    case Checked(scans, views) =>
      match AfterBlockhash(views, p.row.absenceObservedAt.Some?)
      case KeepFence => DeferAttempt(l, p.attempt, false, now)
      case ObserveAbsence => DeferAttempt(l, p.attempt, true, now)
      case Release => ReleaseAttempt(l, p.attempt, p.row.status, now)
  }

  function JobStep(l: Ledger, e: JobEvent, now: nat): Result<Ledger, Refusal> {
    match e
    case NewJob(job, documents) => NewBundle(l, job, documents, now)
    case MintQuote(quote, document, amount, expiresAt) => NewQuote(l, quote, document, amount, expiresAt)
    case PlanJob(job) => Plan(l, job)
    case ListFor(job, quote) => ListQuote(l, job, quote)
    case Bind(quote) => BindQuote(l, quote)
    case BeginPayment(job, quote, attempt) => Begin(l, job, quote, attempt, now)
    case HoldJob(job) => Hold(l, job)
    case FailJob(job, prepaid) => Fail(l, job, prepaid)
    case CompleteJob(job) => Complete(l, job)
  }

  function FenceStep(s: State, fence: Id, e: FenceEvent): Option<State> {
    match e
    case Enters(entered) =>
      if fence in s.fences || !entered.Entered? then None else Some(s.(fences := s.fences[fence := entered]))
    case Prepares(responseLost) =>
      if fence !in s.fences || !s.fences[fence].Entered? then None
      else
        var r := PrepareFenced(s.ledger, s.fences[fence], s.now);
        if r.Err? then Some(s.(fences := s.fences - {fence}))
        else if responseLost then Some(s.(ledger := r.value, fences := s.fences - {fence}))
        else Some(s.(ledger := r.value, fences := s.fences[fence := MaySend(s.fences[fence].message)]))
    case Sends =>
      if fence !in s.fences || !s.fences[fence].MaySend? then None
      else Some(s.(network := s.network + {s.fences[fence].message}))
    case FenceCrashes => Some(s.(fences := s.fences - {fence}))
  }

  /** The phase of a pass after an RPC round, None when the round is not possible. */
  function NextPhase(w: World, s: State, p: Pass, e: PassEvent): Option<Phase>
    requires ValidWorld(w)
  {
    match e
    case Scans(scans, startView) =>
      if !p.phase.Listed? || !Scannable(w, p.row) || |scans| != w.origins then None
      else if startView < p.listView || s.truthView < startView then None
      else if !TruthfulScan(scans[w.truth], p.row.message.value, s.chain, startView) then None
      else Some(Scanned(scans))
    case Checks(views, readView) =>
      if !p.phase.Scanned? || AfterScans(p.phase.scans) != AskBlockhash || |views| != w.origins then None
      else if s.truthView < readView || !TruthfulBlockhash(views[w.truth], p.row.blockhash, s.chain, readView) then None
      else Some(Checked(p.phase.scans, views))
    case _ => None
  }

  /** What a decided pass leaves in the ledger: its call, or a deferral when that call is refused. */
  function LedgerAfter(w: World, s: State, p: Pass): Ledger
    requires Decided(w, p)
  {
    var r := Act(w, s.ledger, p, s.now);
    if r.Ok? then r.value else DeferOrLeave(s.ledger, p.attempt, s.now)
  }

  function PassStep(w: World, s: State, pass: Id, e: PassEvent): Option<State>
    requires ValidWorld(w)
  {
    if e.Lists? then
      if pass in s.passes || e.attempt !in s.ledger.attempts || !Live(s.ledger.attempts[e.attempt]) then None
      else Some(s.(passes := s.passes[pass := Pass(e.attempt, s.ledger.attempts[e.attempt], s.truthView, Listed)]))
    else if pass !in s.passes then None
    else
      var p := s.passes[pass];
      match e
      case Acts =>
        if Decided(w, p) then Some(s.(ledger := LedgerAfter(w, s, p), passes := s.passes - {pass})) else None
      case Defers => Some(s.(ledger := DeferOrLeave(s.ledger, p.attempt, s.now), passes := s.passes - {pass}))
      case PassCrashes => Some(s.(passes := s.passes - {pass}))
      case _ =>
        var next := NextPhase(w, s, p, e);
        if next.Some? then Some(s.(passes := s.passes[pass := p.(phase := next.value)])) else None
  }

  function ChainStep(w: World, s: State, e: ChainEvent): Option<State> {
    match e
    case Tick(time) => if s.now <= time then Some(s.(now := time)) else None
    case Land(message, ok, signature) =>
      if message !in s.network || message in s.chain.landed || w.token(message) in s.chain.expired then None
      else if exists m :: m in s.chain.landed && s.chain.landed[m].signature == signature then None
      else
        var slot := s.chain.height + 1;
        Some(s.(chain := s.chain.(landed := s.chain.landed[message := Landing(slot, ok, signature)], height := slot)))
    case Expire(blockhash) =>
      if blockhash in s.chain.expired then None
      else
        var slot := s.chain.height + 1;
        Some(s.(chain := s.chain.(expired := s.chain.expired[blockhash := slot], height := slot)))
    case TruthCatchesUp(view) =>
      if s.truthView <= view <= s.chain.height then Some(s.(truthView := view)) else None
  }

  /** The gateway's own callback delivers once the truthful origin shows the success finalized. */
  function GatewayStep(s: State, attempt: Id): Result<Ledger, Refusal> {
    if attempt !in s.ledger.attempts || s.ledger.attempts[attempt].message.None? then Err(Conflict)
    else
      var m := s.ledger.attempts[attempt].message.value;
      if m !in s.chain.landed || !s.chain.landed[m].ok || s.truthView < s.chain.landed[m].slot then Err(Conflict)
      else SettleAttempt(s.ledger, attempt, s.chain.landed[m].signature)
  }

  function AmountIn(l: Ledger): Id -> nat {
    (q: Id) => if q in l.quotes then l.quotes[q].amount else 0
  }

  /**
   * A plan that a worker was given and accepted: one bound quote for each document
   * that is not delivered, within the funded budget.
   */
  predicate PlanFits(l: Ledger, job: Id, quotes: seq<Id>) {
    && job in l.jobs
    && (forall i, k :: 0 <= i < k < |quotes| ==> quotes[i] != quotes[k])
    && (forall i :: 0 <= i < |quotes| ==> quotes[i] in l.quotes && l.quotes[quotes[i]].bound)
    && SumOf(quotes, AmountIn(l)) <= Budget(l.jobs[job])
    && (forall k :: 0 <= k < |l.jobs[job].documents| ==> Covered(l, l.jobs[job], quotes, l.jobs[job].documents[k].id))
  }

  predicate Covered(l: Ledger, j: Job, quotes: seq<Id>, document: Id) {
    || DocumentDelivered(l, j, document)
    || exists i :: 0 <= i < |quotes| && quotes[i] in l.quotes && l.quotes[quotes[i]].document == document
  }

  /** Only a worker that accepted a plan of the job begins a payment. */
  predicate MayAsk(s: State, e: JobEvent) {
    e.BeginPayment? ==> e.job in s.accepted
  }

  function Step(w: World, s: State, e: Event): Option<State>
    requires ValidWorld(w)
  {
    match e
    case OnJob(jobEvent) =>
      var r := JobStep(s.ledger, jobEvent, s.now);
      if MayAsk(s, jobEvent) && r.Ok? then Some(s.(ledger := r.value)) else None
    case OnFence(fence, fenceEvent) => FenceStep(s, fence, fenceEvent)
    case OnPass(pass, passEvent) => PassStep(w, s, pass, passEvent)
    case OnChain(chainEvent) => ChainStep(w, s, chainEvent)
    case GatewayDelivers(attempt) =>
      var r := GatewayStep(s, attempt);
      if r.Ok? then Some(s.(ledger := r.value)) else None
    case AcceptPlan(job, quotes) =>
      if !PlanFits(s.ledger, job, quotes) then None
      else if job in s.accepted then Some(s)
      else Some(s.(accepted := s.accepted[job := quotes]))
  }

  const Start := State(
    Ledger(map[], map[], map[], map[], map[]), Chain(map[], map[], 0), map[], {}, map[], 0, 0, map[])

  /** The state after a run, or None when some event of it was not enabled. */
  function Run(w: World, events: seq<Event>): Option<State>
    requires ValidWorld(w)
  {
    if events == [] then Some(Start)
    else
      var before := Run(w, events[..|events| - 1]);
      if before.None? then None else Step(w, before.value, events[|events| - 1])
  }
}
