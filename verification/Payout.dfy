/**
 * Payout and refund claims: the ledger's claim rows (backend/src/store.rs),
 * the worker that pays them and the verdict it draws from several RPC origins
 * (agent-orchestrator/src/refunds.ts), as steps of one protocol with the chain.
 *
 * A signed transaction is identified by its signature. Assumed of the outside
 * world: a transaction lands at most once and never above its last valid block
 * height; one configured origin never lies about what is finalized, though its
 * view may lag, and its view never moves backwards.
 *
 * The worker's requests to the ledger travel: its client gives up on one after a
 * while, which does not keep the ledger from executing it later. Several passes
 * may run under one worker id.
 */
module Payout {
  import opened Wrappers

  type Id = string
  type Tx = string

  const ABSENCE_CONFIRMATION_MS: nat := 120_000
  const MAX_ATTEMPTS: nat := 10

  // ---- the verdict ----

  datatype Commitment = Unstated | Processed | Confirmed | Finalized

  datatype Status = Unknown | Known(ok: bool, commitment: Commitment)

  /** What one origin answered: first the signature's status, then its finalized height. */
  datatype View = View(status: Status, blockHeight: nat)

  datatype Verdict = Paid | AbsentOrFailed | Inconclusive

  predicate Succeeded(v: View) {
    v.status.Known? && v.status.ok
  }

  function Observe(views: seq<Option<View>>, lastValid: nat): Verdict {
    if |views| < 2 then Inconclusive
    else if exists i :: 0 <= i < |views| && views[i].None? then Inconclusive
    else if forall i :: 0 <= i < |views| ==>
      Succeeded(views[i].value) && views[i].value.status.commitment == Finalized
    then Paid
    else if exists i :: 0 <= i < |views| && Succeeded(views[i].value) then Inconclusive
    else if forall i :: 0 <= i < |views| ==> views[i].value.blockHeight > lastValid then AbsentOrFailed
    else Inconclusive
  }

  /** What every single view must say for a decisive verdict. */
  predicate Supports(v: Option<View>, verdict: Verdict, lastValid: nat) {
    match verdict
    case Paid => v.Some? && v.value.status == Known(true, Finalized)
    case AbsentOrFailed => v.Some? && !Succeeded(v.value) && v.value.blockHeight > lastValid
    case Inconclusive => false
  }

  /** Decisive means at least two origins and no dissent. */
  lemma DecisiveIsUnanimous(views: seq<Option<View>>, lastValid: nat, verdict: Verdict)
    requires verdict != Inconclusive
    ensures Observe(views, lastValid) == verdict <==>
      |views| >= 2 && forall v :: v in views ==> Supports(v, verdict, lastValid)
  {
    if Observe(views, lastValid) == verdict {
      forall v | v in views ensures Supports(v, verdict, lastValid) {
        var i :| 0 <= i < |views| && views[i] == v;
      }
    }
    if |views| >= 2 && forall v :: v in views ==> Supports(v, verdict, lastValid) {
      assert forall i :: 0 <= i < |views| ==> views[i] in views;
      assert views[0] in views;
    }
  }

  /** Dropping origins never changes a decisive verdict while two are left. */
  lemma DecisiveSurvivesDropping(views: seq<Option<View>>, kept: seq<Option<View>>, lastValid: nat)
    requires Observe(views, lastValid) != Inconclusive
    requires |kept| >= 2 && forall v :: v in kept ==> v in views
    ensures Observe(kept, lastValid) == Observe(views, lastValid)
  {
    DecisiveIsUnanimous(views, lastValid, Observe(views, lastValid));
    DecisiveIsUnanimous(kept, lastValid, Observe(views, lastValid));
  }

  // ---- the claim rows ----

  datatype ClaimStatus = Pending | Leased | Prepared | Failed | Settled

  datatype Claim = Claim(
    status: ClaimStatus,
    signature: Option<Tx>,
    bytes: Option<Tx>,
    blockhash: Option<string>,
    lastValid: Option<nat>,
    preparedAt: nat,
    absenceObservedAt: Option<nat>,
    attempts: nat,
    leaseOwner: Option<Id>,
    leaseExpiresAt: nat)

  predicate ActiveLease(c: Claim, worker: Id, now: nat) {
    c.leaseOwner == Some(worker) && now < c.leaseExpiresAt
  }

  predicate NoEvidence(c: Claim) {
    c.signature.None? && c.bytes.None? && c.blockhash.None? && c.lastValid.None?
  }

  predicate WholeEvidence(c: Claim) {
    c.signature.Some? && c.bytes.Some? && c.blockhash.Some? && c.lastValid.Some?
  }

  /** Expired leases return first; then the row is leased if it is workable. */
  function Lease(c: Claim, worker: Id, now: nat, expiresAt: nat): Option<Claim> {
    var row := if c.status == Leased && c.leaseExpiresAt <= now
               then c.(status := if c.bytes.None? then Pending else Prepared, leaseOwner := None) else c;
    if row.attempts >= MAX_ATTEMPTS || (row.leaseOwner.Some? && now < row.leaseExpiresAt) then None
    else if !(((row.status == Pending || row.status == Failed) && NoEvidence(row) && row.absenceObservedAt.None?)
              || (row.status == Prepared && WholeEvidence(row) && row.attempts > 0)) then None
    else Some(row.(
      status := if row.bytes.None? then Leased else Prepared, leaseOwner := Some(worker), leaseExpiresAt := expiresAt))
  }

  function PrepareClaim(c: Claim, worker: Id, tx: Tx, blockhash: string, lastValid: nat, now: nat): Option<Claim> {
    if !ActiveLease(c, worker, now) || lastValid == 0 then None
    else if c.status == Prepared then if c.signature == Some(tx) && c.bytes == Some(tx) then Some(c) else None
    else if c.status != Leased then None
    else Some(c.(status := Prepared, signature := Some(tx), bytes := Some(tx), blockhash := Some(blockhash),
                 lastValid := Some(lastValid), attempts := c.attempts + 1, preparedAt := now,
                 absenceObservedAt := None))
  }

  function CompleteClaim(c: Claim, worker: Id, tx: Tx, now: nat): Option<Claim> {
    if c.status == Settled then if c.signature == Some(tx) then Some(c) else None
    else if !ActiveLease(c, worker, now) || c.status != Prepared || c.signature != Some(tx) then None
    else Some(c.(status := Settled, bytes := None, leaseOwner := None, absenceObservedAt := None))
  }

  function FailClaim(c: Claim, worker: Id, abandon: bool, now: nat): Option<Claim> {
    if !ActiveLease(c, worker, now) then None
    else if c.status == Settled then Some(c)
    else if abandon then
      if c.status != Prepared || c.signature.None? || c.bytes.None? then None
      else if c.absenceObservedAt.Some?
              && (c.absenceObservedAt.value < c.preparedAt || c.absenceObservedAt.value > now) then None
      else if c.absenceObservedAt.Some? && c.absenceObservedAt.value + ABSENCE_CONFIRMATION_MS <= now then
        Some(c.(status := Failed, signature := None, bytes := None, blockhash := None, lastValid := None,
                preparedAt := 0,
                absenceObservedAt := None, leaseOwner := None))
      else
        Some(c.(absenceObservedAt := if c.absenceObservedAt.Some? then c.absenceObservedAt else Some(now),
                leaseOwner := None))
    else
      Some(c.(status := if c.bytes.None? then Failed else Prepared, leaseOwner := None, absenceObservedAt := None,
              attempts := c.attempts + if c.bytes.None? then 1 else 0))
  }

  // ---- the worker ----

  datatype Choice = Refuse | ObserveFirst | BuildNew

  /** validatePayoutClaim and the branch after it: partial evidence is refused, whole evidence is observed. */
  function ChooseStep(row: Claim): Choice {
    if row.status == Leased then if NoEvidence(row) then BuildNew else Refuse
    else if row.status == Prepared then if WholeEvidence(row) && row.lastValid.value > 0 then ObserveFirst else Refuse
    else Refuse
  }

  /** What a request asks of the ledger; only the first two name their transaction to it. */
  datatype Call =
    | Prepares(tx: Tx, blockhash: string, recorded: nat)
    | Completes(tx: Tx)
    | Abandons(seen: Tx, afterAbsence: bool)
    | GivesUp

  /** `lease` counts the claim's leases; neither it nor what an abandoning call has seen reaches the ledger. */
  datatype Request = Request(worker: Id, claim: Id, lease: nat, call: Call)

  /**
   * A pass holds a row, obtained when the origin that never lies had come to
   * `rowView`; it broadcasts only what its prepare call was answered with.
   */
  datatype Pass = Pass(
    worker: Id, claim: Id, lease: nat, row: Claim, rowView: nat, asked: Option<Tx>, sending: Option<Tx>)

  datatype Landing = Landing(height: nat, ok: bool)

  datatype Chain = Chain(landed: map<Tx, Landing>, height: nat)

  /** What a signed transaction's bytes say: the claim named in its memo and its real last valid height. */
  datatype World = World(origins: nat, truth: nat, memo: Tx -> Id, lastValid: Tx -> nat)

  datatype State = State(
    claims: map<Id, Claim>,
    leases: map<Id, nat>,
    chain: Chain,
    passes: map<Id, Pass>,
    requests: set<Request>,
    network: set<Tx>,
    truthView: nat,
    now: nat)

  datatype PassEvent =
    | TakeLease(worker: Id, claim: Id, expiresAt: nat)
    | AskToPrepare(tx: Tx, blockhash: string, recorded: nat)
    | Broadcast
    | Look(views: seq<Option<View>>, statusView: nat, heightView: nat)
    | Throw
    | Crash

  datatype ChainEvent =
    | Land(tx: Tx, ok: bool)
    | Grow
    | TruthCatchesUp(view: nat)
    | Tick(time: nat)

  /** Executing a request may answer the pass that waits for it; a request may be executed more than once. */
  datatype Event =
    | OnPass(pass: Id, passEvent: PassEvent)
    | Executes(request: Request, answered: Option<Id>)
    | OnChain(chainEvent: ChainEvent)
    | NewClaim(claim: Id)

  predicate ValidWorld(w: World) {
    w.truth < w.origins
  }

  /** The origin that never lies, its status read at one view and its height at a later one. */
  predicate TruthfulView(answer: Option<View>, tx: Tx, c: Chain, statusView: nat, heightView: nat) {
    answer.Some? ==>
      && (tx in c.landed && c.landed[tx].height <= statusView ==>
            answer.value.status == Known(c.landed[tx].ok, Finalized))
      && (answer.value.status.Known? && answer.value.status.commitment == Finalized ==>
            tx in c.landed && c.landed[tx].ok == answer.value.status.ok)
      && answer.value.blockHeight <= heightView
  }

  function WithClaim(s: State, claim: Id, c: Claim): State {
    s.(claims := s.claims[claim := c])
  }

  function EndPass(s: State, pass: Id): State {
    s.(passes := s.passes - {pass})
  }

  function LeasesOf(s: State, claim: Id): nat {
    if claim in s.leases then s.leases[claim] else 0
  }

  function LeaseStep(s: State, pass: Id, worker: Id, claim: Id, expiresAt: nat): Option<State> {
    if pass in s.passes || claim !in s.claims then None
    else
      var row := Lease(s.claims[claim], worker, s.now, expiresAt);
      if row.None? then None
      else
        var lease := LeasesOf(s, claim) + 1;
        var started := Pass(worker, claim, lease, row.value, s.truthView, None, None);
        Some(WithClaim(s, claim, row.value).(
          leases := s.leases[claim := lease], passes := s.passes[pass := started]))
  }

  /** The pass sends a request and goes on. */
  function Asks(s: State, pass: Id, p: Pass, call: Call): State {
    s.(requests := s.requests + {Request(p.worker, p.claim, p.lease, call)}, passes := s.passes[pass := p])
  }

  /** The last valid height it wants recorded is what its first origin said, whether true or not. */
  function AskStep(w: World, s: State, pass: Id, tx: Tx, blockhash: string, recorded: nat): Option<State>
    requires pass in s.passes
  {
    var p := s.passes[pass];
    if ChooseStep(p.row) != BuildNew || p.asked.Some? || w.memo(tx) != p.claim then None
    else Some(Asks(s, pass, p.(asked := Some(tx)), Prepares(tx, blockhash, recorded)))
  }

  /** A look at the chain: a decisive verdict is reported, else the transaction is sent once more. */
  function LookStep(w: World, s: State, pass: Id, views: seq<Option<View>>, statusView: nat, heightView: nat)
    : Option<State>
    requires ValidWorld(w) && pass in s.passes
  {
    var p := s.passes[pass];
    if ChooseStep(p.row) != ObserveFirst || |views| != w.origins then None
    else if !(p.rowView <= statusView <= heightView <= s.truthView) then None
    else if !TruthfulView(views[w.truth], p.row.signature.value, s.chain, statusView, heightView) then None
    else
      match Observe(views, p.row.lastValid.value)
      case Inconclusive => Some(s.(passes := s.passes[pass := p.(sending := p.row.signature)]))
      case Paid => Some(Asks(s, pass, p, Completes(p.row.signature.value)))
      case AbsentOrFailed => Some(Asks(s, pass, p, Abandons(p.row.signature.value, p.row.absenceObservedAt.Some?)))
  }

  /** Every exception, a call given up on included, ends the pass with a plain failure report. */
  function PassStep(w: World, s: State, pass: Id, e: PassEvent): Option<State>
    requires ValidWorld(w)
  {
    if e.TakeLease? then LeaseStep(s, pass, e.worker, e.claim, e.expiresAt)
    else if pass !in s.passes then None
    else
      var p := s.passes[pass];
      match e
      case AskToPrepare(tx, blockhash, recorded) => AskStep(w, s, pass, tx, blockhash, recorded)
      case Broadcast => if p.sending.None? then None else Some(s.(network := s.network + {p.sending.value}))
      case Look(views, statusView, heightView) => LookStep(w, s, pass, views, statusView, heightView)
      case Throw => Some(EndPass(Asks(s, pass, p, GivesUp), pass))
      case _ => Some(EndPass(s, pass))
  }

  /** The ledger's transaction for a request; None when it refuses. */
  function Executed(c: Claim, r: Request, now: nat): Option<Claim> {
    match r.call
    case Prepares(tx, blockhash, recorded) => PrepareClaim(c, r.worker, tx, blockhash, recorded, now)
    case Completes(tx) => CompleteClaim(c, r.worker, tx, now)
    case Abandons(_, _) => FailClaim(c, r.worker, true, now)
    case GivesUp => FailClaim(c, r.worker, false, now)
  }

  predicate Awaits(p: Pass, r: Request) {
    r.call.Prepares? && p.worker == r.worker && p.claim == r.claim && p.lease == r.lease && p.asked == Some(r.call.tx)
  }

  function ExecuteStep(s: State, r: Request, answered: Option<Id>): Option<State> {
    if r !in s.requests || r.claim !in s.claims then None
    else
      var c := Executed(s.claims[r.claim], r, s.now);
      if c.None? then if answered.None? then Some(s) else None
      else if answered.None? then Some(WithClaim(s, r.claim, c.value))
      else if answered.value !in s.passes || !Awaits(s.passes[answered.value], r) then None
      else
        var p := s.passes[answered.value].(row := c.value, rowView := s.truthView, sending := Some(r.call.tx));
        Some(WithClaim(s, r.claim, c.value).(passes := s.passes[answered.value := p]))
  }

  function ChainStep(w: World, s: State, e: ChainEvent): Option<State> {
    match e
    case Land(tx, ok) =>
      var height := s.chain.height + 1;
      if tx !in s.network || tx in s.chain.landed || height > w.lastValid(tx) then None
      else Some(s.(chain := Chain(s.chain.landed[tx := Landing(height, ok)], height)))
    case Grow => Some(s.(chain := s.chain.(height := s.chain.height + 1)))
    case TruthCatchesUp(view) => if s.truthView <= view <= s.chain.height then Some(s.(truthView := view)) else None
    case Tick(time) => if s.now <= time then Some(s.(now := time)) else None
  }

  const FreshClaim := Claim(Pending, None, None, None, None, 0, None, 0, None, 0)

  function Step(w: World, s: State, e: Event): Option<State>
    requires ValidWorld(w)
  {
    match e
    case OnPass(pass, passEvent) => PassStep(w, s, pass, passEvent)
    case Executes(request, answered) => ExecuteStep(s, request, answered)
    case OnChain(chainEvent) => ChainStep(w, s, chainEvent)
    case NewClaim(claim) => if claim in s.claims then None else Some(WithClaim(s, claim, FreshClaim))
  }

  const Start := State(map[], map[], Chain(map[], 0), map[], {}, {}, 0, 0)

  function Run(w: World, events: seq<Event>): Option<State>
    requires ValidWorld(w)
  {
    if |events| == 0 then Some(Start)
    else
      var before := Run(w, events[..|events| - 1]);
      if before.None? then None else Step(w, before.value, events[|events| - 1])
  }

  // ---- what abandoning calls do ----

  /** An executed abandoning call notes an absence, or drops the evidence of one noted before, or neither. */
  datatype Effect = Neither | Notes(sameTx: bool) | Drops(sameTx: bool, afterAbsence: bool)

  function EffectOf(c: Claim, r: Request, now: nat): Effect {
    if !r.call.Abandons? then Neither
    else
      var after := FailClaim(c, r.worker, true, now);
      if after.None? then Neither
      else if c.signature.Some? && after.value.signature.None? then
        Drops(c.signature == Some(r.call.seen), r.call.afterAbsence)
      else if c.absenceObservedAt.None? && after.value.absenceObservedAt.Some? then
        Notes(c.signature == Some(r.call.seen))
      else Neither
  }

  /** The claim still holds what was looked at and, for a drop, the look came after a noted absence. */
  predicate Harmless(e: Effect) {
    match e
    case Neither => true
    case Notes(sameTx) => sameTx
    case Drops(sameTx, afterAbsence) => sameTx && afterAbsence
  }

  function EventEffect(s: State, e: Event): Effect {
    if e.Executes? && e.request.claim in s.claims then EffectOf(s.claims[e.request.claim], e.request, s.now)
    else Neither
  }

  /** Every abandoning call of the run has an allowed effect where it is executed. */
  ghost predicate Effects(w: World, events: seq<Event>, allowed: Effect -> bool)
    requires ValidWorld(w)
  {
    |events| > 0 ==>
      && Effects(w, events[..|events| - 1], allowed)
      && (Run(w, events[..|events| - 1]).Some? ==>
            allowed(EventEffect(Run(w, events[..|events| - 1]).value, events[|events| - 1])))
  }
}
