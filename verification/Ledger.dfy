/**
 * The durable payment ledger (backend/src/store.rs): research jobs and their
 * documents, quotes, payment attempts on both rails, the per-quote fence table
 * and the registry of on-chain signatures. Every operation is one database
 * transaction, so it is one function from ledger to ledger or a refusal.
 */
module Ledger {
  import opened Wrappers
  import opened Sums
  import opened Reconciler

  type Id = string
  type Message = seq<int>
  type Blockhash = string

  const ABSENCE_CONFIRMATION_MS: nat := 120_000

  datatype AttemptStatus = Claimed | Prepared | Ambiguous | Settled | Released

  /** `job` is None for the direct rail, whose attempts start out prepared. */
  datatype Attempt = Attempt(
    job: Option<Id>,
    quote: Id,
    status: AttemptStatus,
    message: Option<Message>,
    blockhash: Blockhash,
    preparedAt: nat,
    absenceObservedAt: Option<nat>,
    signature: Option<Signature>)

  datatype JobStatus =
    Funded | Processing | PaymentInProgress | PaymentReconciliation | Completed | RefundPending | BalanceRefunded

  /** A document of a bundle, with its price in the rate the bundle was funded at. */
  datatype Document = Document(id: Id, price: nat)

  /** `listed` is the quote each document is bought under at present; `refund` is what closing gave back. */
  datatype Job = Job(
    status: JobStatus,
    active: Option<(Id, Id)>,
    documents: seq<Document>,
    listed: map<Id, Id>,
    refund: nat)

  datatype QuoteStatus = Quoted | Delivered

  /** The document of a quote stands for one purchase: a query and a document; `bound` is its payment rail. */
  datatype Quote = Quote(status: QuoteStatus, expiresAt: nat, document: Id, amount: nat, bound: bool)

  datatype Ledger = Ledger(
    jobs: map<Id, Job>,
    quotes: map<Id, Quote>,
    attempts: map<Id, Attempt>,
    fences: map<Id, Id>,
    registry: map<Signature, Id>)

  datatype Refusal = NotFound | Conflict

  predicate Live(a: Attempt) {
    a.status == Claimed || a.status == Prepared || a.status == Ambiguous
  }

  predicate HoldsPayment(status: JobStatus) {
    status == PaymentInProgress || status == PaymentReconciliation
  }

  predicate Owns(l: Ledger, attempt: Id)
    requires attempt in l.attempts
  {
    var a := l.attempts[attempt];
    a.job.Some? ==>
      && a.job.value in l.jobs
      && HoldsPayment(l.jobs[a.job.value].status)
      && l.jobs[a.job.value].active == Some((a.quote, attempt))
  }

  predicate Payable(l: Ledger, quote: Id, now: nat) {
    && quote in l.quotes && l.quotes[quote].status == Quoted && now < l.quotes[quote].expiresAt
    && l.quotes[quote].bound
  }

  // ---- bundles ----

  function PriceOf(d: Document): nat { d.price }

  function Budget(j: Job): nat {
    SumOf(j.documents, PriceOf)
  }

  predicate HasDocument(documents: seq<Document>, id: Id) {
    exists k :: 0 <= k < |documents| && documents[k].id == id
  }

  predicate DocumentDelivered(l: Ledger, j: Job, id: Id) {
    id in j.listed && j.listed[id] in l.quotes && l.quotes[j.listed[id]].status == Delivered
  }

  /** The documents bought so far, in order. */
  function DeliveredOf(l: Ledger, j: Job, documents: seq<Document>): (r: seq<Document>)
    ensures forall d :: d in r <==> d in documents && DocumentDelivered(l, j, d.id)
  {
    if |documents| == 0 then []
    else
      var earlier, last := DeliveredOf(l, j, documents[..|documents| - 1]), documents[|documents| - 1];
      if DocumentDelivered(l, j, last.id) then earlier + [last] else earlier
  }

  /** What the ledger counts as spent: the bundle's own prices of the delivered documents. */
  function Spent(l: Ledger, j: Job): nat {
    SumOf(DeliveredOf(l, j, j.documents), PriceOf)
  }

  function Refundable(l: Ledger, j: Job): nat {
    if Budget(j) > Spent(l, j) then Budget(j) - Spent(l, j) else 0
  }

  predicate ValidBundle(documents: seq<Document>) {
    && |documents| > 0
    && (forall i, k :: 0 <= i < k < |documents| ==> documents[i].id != documents[k].id)
    && (forall i :: 0 <= i < |documents| ==> documents[i].price > 0)
  }

  /** A bundle owns the purchases of its documents until its funding is fully given back. */
  predicate Reserved(l: Ledger, document: Id) {
    exists j :: j in l.jobs && l.jobs[j].status != BalanceRefunded && HasDocument(l.jobs[j].documents, document)
  }

  /** A quote whose money may be in motion, or that can still be paid. */
  predicate QuoteActive(l: Ledger, quote: Id, now: nat)
    requires quote in l.quotes
  {
    quote in l.fences || l.quotes[quote].bound || l.quotes[quote].status == Delivered || now < l.quotes[quote].expiresAt
  }

  predicate PurchaseTaken(l: Ledger, document: Id, now: nat) {
    || Reserved(l, document)
    || exists q :: q in l.quotes && l.quotes[q].document == document && QuoteActive(l, q, now)
  }

  function NewBundle(l: Ledger, job: Id, documents: seq<Document>, now: nat): Result<Ledger, Refusal> {
    if job in l.jobs || !ValidBundle(documents) then Err(Conflict)
    else if exists k :: 0 <= k < |documents| && PurchaseTaken(l, documents[k].id, now) then Err(Conflict)
    else Ok(l.(jobs := l.jobs[job := Job(Funded, None, documents, map[], 0)]))
  }

  // ---- planning: quotes are minted, listed for their document and bound to the rail one by one ----

  /** Asking for a plan moves a funded job to processing. */
  function Plan(l: Ledger, job: Id): Result<Ledger, Refusal> {
    if job !in l.jobs then Err(NotFound)
    else
      var j := l.jobs[job];
      if j.status != Funded && j.status != Processing then Err(Conflict)
      else Ok(l.(jobs := l.jobs[job := j.(status := Processing)]))
  }

  function NewQuote(l: Ledger, quote: Id, document: Id, amount: nat, expiresAt: nat): Result<Ledger, Refusal> {
    if quote in l.quotes then Err(Conflict)
    else Ok(l.(quotes := l.quotes[quote := Quote(Quoted, expiresAt, document, amount, false)]))
  }

  /** A fenced or delivered quote is what its document stays listed under. */
  function ListQuote(l: Ledger, job: Id, quote: Id): Result<Ledger, Refusal> {
    if job !in l.jobs || quote !in l.quotes then Err(NotFound)
    else
      var j, document := l.jobs[job], l.quotes[quote].document;
      if !HasDocument(j.documents, document) then Err(NotFound)
      else if document in j.listed && (j.listed[document] in l.fences || DocumentDelivered(l, j, document)) then Ok(l)
      else Ok(l.(jobs := l.jobs[job := j.(listed := j.listed[document := quote])]))
  }

  /** One quote of a purchase is ever bound to the rail; it is never unbound. */
  function BindQuote(l: Ledger, quote: Id): Result<Ledger, Refusal> {
    if quote !in l.quotes then Err(NotFound)
    else if l.quotes[quote].bound then Ok(l)
    else if exists q :: q in l.quotes && l.quotes[q].document == l.quotes[quote].document && l.quotes[q].bound then
      Err(Conflict)
    else Ok(l.(quotes := l.quotes[quote := l.quotes[quote].(bound := true)]))
  }

  predicate ListedUnder(j: Job, l: Ledger, quote: Id) {
    quote in l.quotes && l.quotes[quote].document in j.listed && j.listed[l.quotes[quote].document] == quote
  }

  // ---- attempts ----

  function Begin(l: Ledger, job: Id, quote: Id, attempt: Id, now: nat): Result<Ledger, Refusal> {
    if job !in l.jobs then Err(NotFound)
    else
      var j := l.jobs[job];
      if j.status == PaymentInProgress && j.active == Some((quote, attempt)) then
        if attempt in l.attempts && l.attempts[attempt].job == Some(job)
           && l.attempts[attempt].quote == quote && Live(l.attempts[attempt])
        then Ok(l) else Err(Conflict)
      else if j.status != Processing then Err(Conflict)
      else if !ListedUnder(j, l, quote) || !Payable(l, quote, now) then Err(Conflict)
      else if quote in l.fences then Err(Conflict)
      else if attempt in l.attempts || j.active.Some? then Err(Conflict)
      else
        var created := Attempt(Some(job), quote, Claimed, None, "", now, None, None);
        Ok(l.(attempts := l.attempts[attempt := created],
              fences := l.fences[quote := attempt],
              jobs := l.jobs[job := j.(status := PaymentInProgress, active := Some((quote, attempt)))]))
  }

  function Prepare(l: Ledger, job: Id, attempt: Id, quote: Id, message: Message, blockhash: Blockhash, now: nat)
    : Result<Ledger, Refusal>
  {
    if attempt !in l.attempts then Err(NotFound)
    else
      var a := l.attempts[attempt];
      if a.job != Some(job) || a.quote != quote then Err(Conflict)
      else if a.status == Prepared && a.message == Some(message) && a.blockhash == blockhash then Ok(l)
      else if a.status != Claimed then Err(Conflict)
      else if job !in l.jobs || l.jobs[job].status != PaymentInProgress
              || l.jobs[job].active != Some((quote, attempt)) then Err(Conflict)
      else Ok(l.(attempts := l.attempts[attempt :=
        a.(status := Prepared, message := Some(message), blockhash := blockhash, preparedAt := now)]))
  }

  function PrepareDirect(l: Ledger, attempt: Id, quote: Id, message: Message, blockhash: Blockhash, now: nat)
    : Result<Ledger, Refusal>
  {
    if !Payable(l, quote, now) || Reserved(l, l.quotes[quote].document) then Err(Conflict)
    else if attempt in l.attempts then
      var a := l.attempts[attempt];
      if a.job.None? && a.quote == quote && (a.status == Prepared || a.status == Ambiguous)
         && a.message == Some(message) && a.blockhash == blockhash
      then Ok(l) else Err(Conflict)
    else if quote in l.fences then Err(Conflict)
    else
      var created := Attempt(None, quote, Prepared, Some(message), blockhash, now, None, None);
      Ok(l.(attempts := l.attempts[attempt := created], fences := l.fences[quote := attempt]))
  }

  function DeferAttempt(l: Ledger, attempt: Id, absenceObserved: bool, now: nat): Result<Ledger, Refusal> {
    if attempt !in l.attempts || !Live(l.attempts[attempt]) then Err(Conflict)
    else
      var a := l.attempts[attempt];
      var observed := if absenceObserved && a.absenceObservedAt.None? then Some(now) else a.absenceObservedAt;
      var status := if a.job.None? then Ambiguous else a.status;
      Ok(l.(attempts := l.attempts[attempt := a.(status := status, absenceObservedAt := observed)]))
  }

  function ReleaseAttempt(l: Ledger, attempt: Id, expected: AttemptStatus, now: nat): Result<Ledger, Refusal> {
    if attempt !in l.attempts then Err(NotFound)
    else
      var a := l.attempts[attempt];
      if !Live(a) || a.status != expected then Err(Conflict)
      else if expected == Claimed && a.message.Some? then Err(Conflict)
      else if expected != Claimed && (
        a.absenceObservedAt.None?
        || a.absenceObservedAt.value < a.preparedAt
        || now < a.absenceObservedAt.value + ABSENCE_CONFIRMATION_MS) then Err(Conflict)
      else if !Owns(l, attempt) then Err(Conflict)
      else Ok(CloseAttempt(l, attempt, a.(status := Released)))
  }

  /** Delivery, registry claim, attempt completion and fence removal commit together. */
  function SettleAttempt(l: Ledger, attempt: Id, signature: Signature): Result<Ledger, Refusal> {
    if attempt !in l.attempts then Err(NotFound)
    else
      var a := l.attempts[attempt];
      if a.status == Settled then if a.signature == Some(signature) then Ok(l) else Err(Conflict)
      else if a.status != Prepared && a.status != Ambiguous then Err(Conflict)
      else if a.quote !in l.fences || l.fences[a.quote] != attempt || a.quote !in l.quotes then Err(Conflict)
      else if !Owns(l, attempt) then Err(Conflict)
      else if signature in l.registry && l.registry[signature] != a.quote then Err(Conflict)
      else
        var closed := CloseAttempt(l, attempt, a.(status := Settled, signature := Some(signature)));
        Ok(closed.(
          quotes := l.quotes[a.quote := l.quotes[a.quote].(status := Delivered)],
          registry := l.registry[signature := a.quote]))
  }

  /** Ends an attempt: its fence disappears and its job, if any, may run again. */
  function CloseAttempt(l: Ledger, attempt: Id, ended: Attempt): Ledger {
    var jobs := if ended.job.Some? && ended.job.value in l.jobs
                then l.jobs[ended.job.value := l.jobs[ended.job.value].(status := Processing, active := None)]
                else l.jobs;
    var fences := if ended.quote in l.fences && l.fences[ended.quote] == attempt
                  then l.fences - {ended.quote} else l.fences;
    l.(attempts := l.attempts[attempt := ended], fences := fences, jobs := jobs)
  }

  function Hold(l: Ledger, job: Id): Result<Ledger, Refusal> {
    if job !in l.jobs then Err(NotFound)
    else
      var j := l.jobs[job];
      if j.status == Funded || j.status == Processing then Ok(l)
      else if !HoldsPayment(j.status) || j.active.None? then Err(Conflict)
      else
        var attempt := j.active.value.1;
        if attempt !in l.attempts || l.attempts[attempt].job != Some(job)
           || l.attempts[attempt].quote != j.active.value.0 || !Live(l.attempts[attempt]) then Err(Conflict)
        else
          var a := l.attempts[attempt];
          Ok(l.(jobs := l.jobs[job := j.(status := PaymentReconciliation)],
                attempts := l.attempts[attempt :=
                  if a.status == Prepared then a.(status := Ambiguous) else a]))
  }

  predicate IsClosed(j: Job) {
    j.status == Completed || j.status == RefundPending || j.status == BalanceRefunded
  }

  /** What was not spent goes back; a prepaid job is closed as refunded even when nothing is left. */
  function Fail(l: Ledger, job: Id, prepaid: bool): Result<Ledger, Refusal> {
    if job !in l.jobs then Err(NotFound)
    else
      var j := l.jobs[job];
      if IsClosed(j) then Ok(l)
      else if j.status != Funded && j.status != Processing then Err(Conflict)
      else Ok(l.(jobs := l.jobs[job := Closed(l, j, prepaid)]))
  }

  function Closed(l: Ledger, j: Job, prepaid: bool): Job {
    var refund := Refundable(l, j);
    j.(status := if prepaid then BalanceRefunded else if refund > 0 then RefundPending else Completed, refund := refund)
  }

  function Complete(l: Ledger, job: Id): Result<Ledger, Refusal> {
    if job !in l.jobs then Err(NotFound)
    else
      var j := l.jobs[job];
      if exists k :: 0 <= k < |j.documents| && !DocumentDelivered(l, j, j.documents[k].id) then Err(Conflict)
      else if j.status != Processing && j.status != Completed then Err(Conflict)
      else Ok(l.(jobs := l.jobs[job := j.(status := Completed)]))
  }

  /**
   * The structure every operation keeps: a live attempt owns the fence of its
   * still unpaid quote and, on the research rail, its job; a settled attempt
   * is the only one of its quote and its signature is registered for it.
   */
  ghost predicate Consistent(l: Ledger) {
    && (forall a :: a in l.attempts && Live(l.attempts[a]) ==> LiveOwnsEverything(l, a))
    && (forall a :: a in l.attempts ==> EvidenceShape(l.attempts[a]))
    && (forall a :: a in l.attempts && l.attempts[a].status == Settled ==> SettledIsDelivered(l, a))
    && OneSettlementPerQuote(l)
    && (forall j :: j in l.jobs && l.jobs[j].active.Some? ==> HoldsPayment(l.jobs[j].status))
  }

  ghost predicate OneSettlementPerQuote(l: Ledger) {
    forall a, b | a in l.attempts && b in l.attempts && l.attempts[a].quote == l.attempts[b].quote ::
      l.attempts[a].status == Settled && l.attempts[b].status == Settled ==> a == b
  }

  ghost predicate LiveOwnsEverything(l: Ledger, attempt: Id)
    requires attempt in l.attempts
  {
    var a := l.attempts[attempt];
    && a.quote in l.fences && l.fences[a.quote] == attempt
    && a.quote in l.quotes && l.quotes[a.quote].status == Quoted
    && Owns(l, attempt)
  }

  ghost predicate EvidenceShape(a: Attempt) {
    && (a.status == Claimed ==> a.message.None? && a.absenceObservedAt.None? && a.job.Some?)
    && (a.status == Prepared || a.status == Ambiguous || a.status == Settled ==> a.message.Some?)
    && (a.message.None? ==> a.absenceObservedAt.None?)
    && (a.status == Settled ==> a.signature.Some?)
  }

  ghost predicate SettledIsDelivered(l: Ledger, attempt: Id)
    requires attempt in l.attempts
  {
    var a := l.attempts[attempt];
    && a.quote in l.quotes && l.quotes[a.quote].status == Delivered
    && a.signature.Some? && a.signature.value in l.registry && l.registry[a.signature.value] == a.quote
  }

  /** What no later operation can undo: identity, recorded bytes, observations and final verdicts. */
  ghost predicate Advances(l: Ledger, m: Ledger) {
    && (forall a :: a in l.attempts ==> a in m.attempts && AttemptAdvances(l.attempts[a], m.attempts[a]))
    && (forall q :: q in l.quotes ==>
          q in m.quotes && (l.quotes[q].status == Delivered ==> m.quotes[q].status == Delivered))
  }

  ghost predicate AttemptAdvances(a: Attempt, b: Attempt) {
    && b.job == a.job && b.quote == a.quote
    && (a.message.Some? ==> b.message == a.message && b.blockhash == a.blockhash && b.preparedAt == a.preparedAt)
    && (a.absenceObservedAt.Some? ==> b.absenceObservedAt == a.absenceObservedAt)
    && (!Live(a) ==> b == a)
  }

  lemma PlanKeeps(l: Ledger, job: Id)
    requires Consistent(l) && Plan(l, job).Ok?
    ensures Consistent(Plan(l, job).value) && Advances(l, Plan(l, job).value)
  {
  }

  lemma ListKeeps(l: Ledger, job: Id, quote: Id)
    requires Consistent(l) && ListQuote(l, job, quote).Ok?
    ensures Consistent(ListQuote(l, job, quote).value) && Advances(l, ListQuote(l, job, quote).value)
  {
    RelistedKeeps(l, ListQuote(l, job, quote).value);
  }

  /** Jobs that keep status and payment, and quotes that keep their status, disturb nothing. */
  lemma RelistedKeeps(l: Ledger, m: Ledger)
    requires Consistent(l) && m.attempts == l.attempts && m.fences == l.fences && m.registry == l.registry
    requires m.jobs.Keys == l.jobs.Keys && m.quotes.Keys == l.quotes.Keys
    requires forall j :: j in l.jobs ==> m.jobs[j].status == l.jobs[j].status && m.jobs[j].active == l.jobs[j].active
    requires forall q :: q in l.quotes ==> m.quotes[q].status == l.quotes[q].status
    ensures Consistent(m) && Advances(l, m)
  {
    forall a | a in m.attempts && Live(m.attempts[a]) ensures LiveOwnsEverything(m, a) {
      assert LiveOwnsEverything(l, a);
    }
    forall a | a in m.attempts && m.attempts[a].status == Settled ensures SettledIsDelivered(m, a) {
      assert SettledIsDelivered(l, a);
    }
  }

  lemma BindKeeps(l: Ledger, quote: Id)
    requires Consistent(l) && BindQuote(l, quote).Ok?
    ensures Consistent(BindQuote(l, quote).value) && Advances(l, BindQuote(l, quote).value)
  {
    RelistedKeeps(l, BindQuote(l, quote).value);
  }

  lemma BeginKeeps(l: Ledger, job: Id, quote: Id, attempt: Id, now: nat)
    requires Consistent(l) && Begin(l, job, quote, attempt, now).Ok?
    ensures Consistent(Begin(l, job, quote, attempt, now).value)
    ensures Advances(l, Begin(l, job, quote, attempt, now).value)
  {
    var m := Begin(l, job, quote, attempt, now).value;
    if m != l {
      AddedAttempt(l, m, attempt, m.attempts[attempt]);
    }
  }

  /** A new live attempt on an unfenced, unpaid quote; on the research rail its idle job becomes its own. */
  lemma AddedAttempt(l: Ledger, m: Ledger, attempt: Id, created: Attempt)
    requires Consistent(l) && attempt !in l.attempts && Live(created) && EvidenceShape(created)
    requires created.quote !in l.fences && created.quote in l.quotes && l.quotes[created.quote].status == Quoted
    requires m.attempts == l.attempts[attempt := created] && m.fences == l.fences[created.quote := attempt]
    requires m.quotes == l.quotes && m.registry == l.registry
    requires created.job.None? ==> m.jobs == l.jobs
    requires created.job.Some? ==> created.job.value in l.jobs && l.jobs[created.job.value].active.None?
    requires created.job.Some? ==> created.job.value in m.jobs && HoldsPayment(m.jobs[created.job.value].status)
    requires created.job.Some? ==> m.jobs[created.job.value].active == Some((created.quote, attempt))
    requires created.job.Some? ==> m.jobs == l.jobs[created.job.value := m.jobs[created.job.value]]
    ensures Consistent(m) && Advances(l, m)
  {
    forall a | a in m.attempts && Live(m.attempts[a]) ensures LiveOwnsEverything(m, a) {
      if a != attempt {
        assert LiveOwnsEverything(l, a);
      }
    }
    forall a | a in m.attempts && m.attempts[a].status == Settled ensures SettledIsDelivered(m, a) {
      assert SettledIsDelivered(l, a);
    }
  }

  lemma PrepareKeeps(l: Ledger, job: Id, attempt: Id, quote: Id, message: Message, blockhash: Blockhash, now: nat)
    requires Consistent(l) && Prepare(l, job, attempt, quote, message, blockhash, now).Ok?
    ensures Consistent(Prepare(l, job, attempt, quote, message, blockhash, now).value)
    ensures Advances(l, Prepare(l, job, attempt, quote, message, blockhash, now).value)
  {
    var m := Prepare(l, job, attempt, quote, message, blockhash, now).value;
    SameOwnership(l, m, attempt);
  }

  lemma PrepareDirectKeeps(l: Ledger, attempt: Id, quote: Id, message: Message, blockhash: Blockhash, now: nat)
    requires Consistent(l) && PrepareDirect(l, attempt, quote, message, blockhash, now).Ok?
    ensures Consistent(PrepareDirect(l, attempt, quote, message, blockhash, now).value)
    ensures Advances(l, PrepareDirect(l, attempt, quote, message, blockhash, now).value)
  {
    var m := PrepareDirect(l, attempt, quote, message, blockhash, now).value;
    if m != l {
      AddedAttempt(l, m, attempt, m.attempts[attempt]);
    }
  }

  /** A step that changes only one live attempt, leaving it live, keeps every ownership fact. */
  lemma SameOwnership(l: Ledger, m: Ledger, attempt: Id)
    requires Consistent(l)
    requires m.quotes == l.quotes && m.fences == l.fences && m.registry == l.registry && m.jobs == l.jobs
    requires attempt in l.attempts && Live(l.attempts[attempt]) && m.attempts.Keys == l.attempts.Keys
    requires forall a :: a in l.attempts && a != attempt ==> m.attempts[a] == l.attempts[a]
    requires Live(m.attempts[attempt]) && EvidenceShape(m.attempts[attempt])
    requires AttemptAdvances(l.attempts[attempt], m.attempts[attempt])
    ensures Consistent(m) && Advances(l, m)
  {
    forall a | a in m.attempts && Live(m.attempts[a]) ensures LiveOwnsEverything(m, a) {
      assert LiveOwnsEverything(l, a);
    }
    forall a | a in m.attempts && m.attempts[a].status == Settled ensures SettledIsDelivered(m, a) {
      assert SettledIsDelivered(l, a);
    }
  }

  /** The ledger itself would record an absence on a claimed attempt; the reconciler never asks it to. */
  lemma DeferKeeps(l: Ledger, attempt: Id, absenceObserved: bool, now: nat)
    requires Consistent(l) && DeferAttempt(l, attempt, absenceObserved, now).Ok?
    requires absenceObserved ==> l.attempts[attempt].status != Claimed
    ensures Consistent(DeferAttempt(l, attempt, absenceObserved, now).value)
    ensures Advances(l, DeferAttempt(l, attempt, absenceObserved, now).value)
  {
    SameOwnership(l, DeferAttempt(l, attempt, absenceObserved, now).value, attempt);
  }

  lemma CloseKeeps(l: Ledger, attempt: Id, ended: Attempt)
    requires Consistent(l) && attempt in l.attempts && Live(l.attempts[attempt]) && !Live(ended)
    requires EvidenceShape(ended) && AttemptAdvances(l.attempts[attempt], ended)
    ensures var m := CloseAttempt(l, attempt, ended);
      && Advances(l, m)
      && (forall a :: a in m.attempts && Live(m.attempts[a]) ==>
            LiveOwnsEverything(m, a) && m.attempts[a].quote != ended.quote)
      && (forall j :: j in m.jobs && m.jobs[j].active.Some? ==> HoldsPayment(m.jobs[j].status))
      && (forall a :: a in l.attempts && l.attempts[a].status == Settled ==>
            a != attempt && l.attempts[a].quote != ended.quote && SettledIsDelivered(m, a))
  {
    var m := CloseAttempt(l, attempt, ended);
    assert LiveOwnsEverything(l, attempt);
    forall a | a in m.attempts && Live(m.attempts[a])
      ensures LiveOwnsEverything(m, a) && m.attempts[a].quote != ended.quote
    {
      assert LiveOwnsEverything(l, a);
    }
    forall a | a in l.attempts && l.attempts[a].status == Settled
      ensures a != attempt && l.attempts[a].quote != ended.quote && SettledIsDelivered(m, a)
    {
      assert SettledIsDelivered(l, a);
    }
  }

  lemma ReleaseKeeps(l: Ledger, attempt: Id, expected: AttemptStatus, now: nat)
    requires Consistent(l) && ReleaseAttempt(l, attempt, expected, now).Ok?
    ensures Consistent(ReleaseAttempt(l, attempt, expected, now).value)
    ensures Advances(l, ReleaseAttempt(l, attempt, expected, now).value)
  {
    CloseKeeps(l, attempt, l.attempts[attempt].(status := Released));
  }

  /** Marking a quote delivered disturbs neither live attempts of other quotes nor earlier settlements. */
  lemma DeliveryKeeps(c: Ledger, m: Ledger, quote: Id, signature: Signature)
    requires quote in c.quotes && m == c.(quotes := c.quotes[quote := c.quotes[quote].(status := Delivered)],
                                          registry := c.registry[signature := quote])
    requires signature in c.registry ==> c.registry[signature] == quote
    ensures forall a :: a in c.attempts && LiveOwnsEverything(c, a) && c.attempts[a].quote != quote ==>
      LiveOwnsEverything(m, a)
    ensures forall a :: a in c.attempts && SettledIsDelivered(c, a) ==> SettledIsDelivered(m, a)
  {
  }

  lemma SettleKeeps(l: Ledger, attempt: Id, signature: Signature)
    requires Consistent(l) && SettleAttempt(l, attempt, signature).Ok?
    ensures Consistent(SettleAttempt(l, attempt, signature).value)
    ensures Advances(l, SettleAttempt(l, attempt, signature).value)
  {
    var m := SettleAttempt(l, attempt, signature).value;
    var a := l.attempts[attempt];
    if a.status != Settled {
      var ended := a.(status := Settled, signature := Some(signature));
      var closed := CloseAttempt(l, attempt, ended);
      CloseKeeps(l, attempt, ended);
      DeliveryKeeps(closed, m, a.quote, signature);
      assert closed.attempts == m.attempts && m.attempts == l.attempts[attempt := ended] && m.jobs == closed.jobs;
      assert SettledIsDelivered(m, attempt);
      hide SettleAttempt, CloseAttempt, LiveOwnsEverything, SettledIsDelivered;
      SettledOnce(l, m, attempt, ended);
    }
  }

  /** The new settlement is the first of its quote. */
  lemma SettledOnce(l: Ledger, m: Ledger, attempt: Id, ended: Attempt)
    requires attempt in l.attempts && ended.quote == l.attempts[attempt].quote && OneSettlementPerQuote(l)
    requires m.attempts == l.attempts[attempt := ended]
    requires forall a :: a in l.attempts && l.attempts[a].status == Settled ==>
      a != attempt && l.attempts[a].quote != ended.quote
    ensures OneSettlementPerQuote(m)
  {
  }

  /** A hold renames: a prepared attempt is ambiguous now, and its job still holds the payment. */
  ghost predicate Renames(l: Ledger, m: Ledger) {
    && m.quotes == l.quotes && m.fences == l.fences && m.registry == l.registry
    && m.jobs.Keys == l.jobs.Keys && m.attempts.Keys == l.attempts.Keys
    && (forall j :: j in l.jobs ==>
          m.jobs[j].active == l.jobs[j].active && (HoldsPayment(l.jobs[j].status) <==> HoldsPayment(m.jobs[j].status)))
    && (forall a :: a in l.attempts ==>
          || m.attempts[a] == l.attempts[a]
          || (l.attempts[a].status == Prepared && m.attempts[a] == l.attempts[a].(status := Ambiguous)))
  }

  lemma HoldRenames(l: Ledger, job: Id)
    requires Hold(l, job).Ok?
    ensures Renames(l, Hold(l, job).value)
  {
  }

  lemma RenamedOwns(l: Ledger, m: Ledger, attempt: Id)
    requires Renames(l, m) && attempt in l.attempts
    ensures LiveOwnsEverything(l, attempt) ==> LiveOwnsEverything(m, attempt)
    ensures SettledIsDelivered(l, attempt) ==> SettledIsDelivered(m, attempt)
    ensures Live(m.attempts[attempt]) <==> Live(l.attempts[attempt])
    ensures m.attempts[attempt].status == Settled <==> l.attempts[attempt].status == Settled
    ensures EvidenceShape(l.attempts[attempt]) ==> EvidenceShape(m.attempts[attempt])
  {
  }

  lemma HoldKeeps(l: Ledger, job: Id)
    requires Consistent(l) && Hold(l, job).Ok?
    ensures Consistent(Hold(l, job).value) && Advances(l, Hold(l, job).value)
  {
    var m := Hold(l, job).value;
    HoldRenames(l, job);
    hide Hold, LiveOwnsEverything, SettledIsDelivered, EvidenceShape, Live;
    forall a | a in l.attempts
      ensures Live(m.attempts[a]) ==> LiveOwnsEverything(m, a)
      ensures EvidenceShape(m.attempts[a]) && (m.attempts[a].status == Settled ==> SettledIsDelivered(m, a))
      ensures AttemptAdvances(l.attempts[a], m.attempts[a])
    {
      RenamedOwns(l, m, a);
      RenamedAdvances(l, m, a);
    }
  }

  lemma RenamedAdvances(l: Ledger, m: Ledger, attempt: Id)
    requires Renames(l, m) && attempt in l.attempts
    ensures AttemptAdvances(l.attempts[attempt], m.attempts[attempt])
  {
  }

  lemma EndKeeps(l: Ledger, job: Id, ended: Job)
    requires Consistent(l) && job in l.jobs && !HoldsPayment(l.jobs[job].status) && !HoldsPayment(ended.status)
    requires ended.active == l.jobs[job].active
    ensures var m := l.(jobs := l.jobs[job := ended]); Consistent(m) && Advances(l, m)
  {
    var m := l.(jobs := l.jobs[job := ended]);
    forall a | a in m.attempts && Live(m.attempts[a]) ensures LiveOwnsEverything(m, a) {
      assert LiveOwnsEverything(l, a);
    }
    forall a | a in m.attempts && m.attempts[a].status == Settled ensures SettledIsDelivered(m, a) {
      assert SettledIsDelivered(l, a);
    }
  }

  lemma FailKeeps(l: Ledger, job: Id, prepaid: bool)
    requires Consistent(l) && Fail(l, job, prepaid).Ok?
    ensures Consistent(Fail(l, job, prepaid).value) && Advances(l, Fail(l, job, prepaid).value)
  {
    if Fail(l, job, prepaid).value != l {
      EndKeeps(l, job, Closed(l, l.jobs[job], prepaid));
    }
  }

  lemma CompleteKeeps(l: Ledger, job: Id)
    requires Consistent(l) && Complete(l, job).Ok?
    ensures Consistent(Complete(l, job).value) && Advances(l, Complete(l, job).value)
  {
    EndKeeps(l, job, l.jobs[job].(status := Completed));
  }
}
