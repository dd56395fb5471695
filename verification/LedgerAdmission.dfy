/**
 * Exactly when the payment ledger of backend/src/store.rs takes an operation in
 * a consistent state, and all that the operation then changes.
 */
module LedgerAdmission {
  import opened Wrappers
  import opened Reconciler
  import opened Ledger

  /** Everything but these jobs, quotes, attempts and fences is as before, the registry included. */
  ghost predicate OnlyChanges(l: Ledger, m: Ledger, jobs: set<Id>, quotes: set<Id>, attempts: set<Id>, fences: set<Id>)
  {
    && m.registry == l.registry
    && m.jobs - jobs == l.jobs - jobs && m.quotes - quotes == l.quotes - quotes
    && m.attempts - attempts == l.attempts - attempts && m.fences - fences == l.fences - fences
  }

  /** The rail's quote of a purchase that is still to be paid in time. */
  predicate Open(l: Ledger, quote: Id, now: nat) {
    quote in l.quotes && l.quotes[quote].status == Quoted && l.quotes[quote].bound && now < l.quotes[quote].expiresAt
  }

  /**
   * A new payment is taken exactly when the job is between payments, lists the
   * quote, the quote is open and nobody is paying for it; the id must be new.
   */
  lemma BegunExactly(l: Ledger, job: Id, quote: Id, attempt: Id, now: nat)
    requires Consistent(l) && job in l.jobs
    requires l.jobs[job].active != Some((quote, attempt))
    ensures Begin(l, job, quote, attempt, now).Ok? <==>
      && l.jobs[job].status == Processing && Open(l, quote, now)
      && l.quotes[quote].document in l.jobs[job].listed
      && l.jobs[job].listed[l.quotes[quote].document] == quote
      && quote !in l.fences && attempt !in l.attempts
    ensures Begin(l, job, quote, attempt, now).Ok? ==>
      var m := Begin(l, job, quote, attempt, now).value;
      && OnlyChanges(l, m, {job}, {}, {attempt}, {quote})
      && job in m.jobs && m.jobs[job] == l.jobs[job].(status := PaymentInProgress, active := Some((quote, attempt)))
      && attempt in m.attempts && m.attempts[attempt] == Attempt(Some(job), quote, Claimed, None, "", now, None, None)
      && quote in m.fences && m.fences[quote] == attempt
  {
  }

  /** Beginning again is taken while the same payment is in progress, and changes nothing. */
  lemma BegunAgainExactly(l: Ledger, job: Id, quote: Id, attempt: Id, now: nat)
    requires job in l.jobs && l.jobs[job].active == Some((quote, attempt))
    ensures Begin(l, job, quote, attempt, now).Ok? <==>
      && l.jobs[job].status == PaymentInProgress
      && attempt in l.attempts && l.attempts[attempt].status in {Claimed, Prepared, Ambiguous}
      && l.attempts[attempt].job == Some(job) && l.attempts[attempt].quote == quote
    ensures Begin(l, job, quote, attempt, now).Ok? ==> Begin(l, job, quote, attempt, now).value == l
  {
  }

  /** Bytes are taken for a claim whose job is not held, and once recorded only the same bytes again. */
  lemma PreparedExactly(
      l: Ledger, job: Id, attempt: Id, quote: Id, message: Message, blockhash: Blockhash, now: nat)
    requires Consistent(l) && attempt in l.attempts && Live(l.attempts[attempt])
    ensures var a := l.attempts[attempt];
      Prepare(l, job, attempt, quote, message, blockhash, now).Ok? <==>
        && a.job == Some(job) && a.quote == quote
        && (|| (a.status == Claimed && l.jobs[job].status == PaymentInProgress)
            || (a.status == Prepared && a.message == Some(message) && a.blockhash == blockhash))
    ensures Prepare(l, job, attempt, quote, message, blockhash, now).Ok? ==>
      var m := Prepare(l, job, attempt, quote, message, blockhash, now).value;
      && OnlyChanges(l, m, {}, {}, {attempt}, {}) && attempt in m.attempts
      && m.attempts[attempt] == (if l.attempts[attempt].status == Prepared then l.attempts[attempt]
                                 else Attempt(Some(job), quote, Prepared, Some(message), blockhash, now, None,
                                              l.attempts[attempt].signature))
  {
    assert LiveOwnsEverything(l, attempt);
    assert EvidenceShape(l.attempts[attempt]);
  }

  /** A direct payment is taken for an open quote outside every bundle that nobody is paying for. */
  lemma PreparedDirectExactly(l: Ledger, attempt: Id, quote: Id, message: Message, blockhash: Blockhash, now: nat)
    requires Consistent(l) && attempt !in l.attempts
    ensures PrepareDirect(l, attempt, quote, message, blockhash, now).Ok? <==>
      && Open(l, quote, now) && quote !in l.fences
      && forall j :: j in l.jobs && HasDocument(l.jobs[j].documents, l.quotes[quote].document) ==>
           l.jobs[j].status == BalanceRefunded
    ensures PrepareDirect(l, attempt, quote, message, blockhash, now).Ok? ==>
      var m := PrepareDirect(l, attempt, quote, message, blockhash, now).value;
      && OnlyChanges(l, m, {}, {}, {attempt}, {quote})
      && attempt in m.attempts
      && m.attempts[attempt] == Attempt(None, quote, Prepared, Some(message), blockhash, now, None, None)
      && quote in m.fences && m.fences[quote] == attempt
  {
  }

  /** The same direct payment may be recorded again with the same bytes, as long as it could be made anew. */
  lemma PreparedDirectAgainExactly(l: Ledger, attempt: Id, quote: Id, message: Message, blockhash: Blockhash, now: nat)
    requires attempt in l.attempts
    ensures PrepareDirect(l, attempt, quote, message, blockhash, now).Ok? <==>
      var a := l.attempts[attempt];
      && Open(l, quote, now)
      && (forall j :: j in l.jobs && HasDocument(l.jobs[j].documents, l.quotes[quote].document) ==>
            l.jobs[j].status == BalanceRefunded)
      && a.job.None? && a.quote == quote && a.status in {Prepared, Ambiguous}
      && a.message == Some(message) && a.blockhash == blockhash
    ensures PrepareDirect(l, attempt, quote, message, blockhash, now).Ok? ==>
      PrepareDirect(l, attempt, quote, message, blockhash, now).value == l
  {
  }

  /** A deferral is taken exactly for a live attempt; on the direct rail it makes the attempt ambiguous. */
  lemma DeferredExactly(l: Ledger, attempt: Id, absenceObserved: bool, now: nat)
    ensures DeferAttempt(l, attempt, absenceObserved, now).Ok? <==>
      attempt in l.attempts && l.attempts[attempt].status in {Claimed, Prepared, Ambiguous}
    ensures DeferAttempt(l, attempt, absenceObserved, now).Ok? ==>
      var a, m := l.attempts[attempt], DeferAttempt(l, attempt, absenceObserved, now).value;
      && OnlyChanges(l, m, {}, {}, {attempt}, {}) && attempt in m.attempts
      && (a.job.None? ==> m.attempts[attempt].status == Ambiguous)
      && (a.job.Some? ==> m.attempts[attempt].status == a.status)
      && m.attempts[attempt] == a.(status := m.attempts[attempt].status,
                                   absenceObservedAt := m.attempts[attempt].absenceObservedAt)
  {
  }

  /** A live attempt with recorded bytes settles exactly under a signature that pays for no other quote. */
  lemma SettledExactly(l: Ledger, attempt: Id, signature: Signature)
    requires Consistent(l) && attempt in l.attempts && Live(l.attempts[attempt])
    ensures var a := l.attempts[attempt];
      SettleAttempt(l, attempt, signature).Ok? <==>
        a.status != Claimed && (signature in l.registry ==> l.registry[signature] == a.quote)
    ensures SettleAttempt(l, attempt, signature).Ok? ==>
      var a, m := l.attempts[attempt], SettleAttempt(l, attempt, signature).value;
      && Ended(l, m.(quotes := l.quotes, registry := l.registry), attempt)
      && m.attempts[attempt] == a.(status := Settled, signature := Some(signature))
      && m.quotes == l.quotes[a.quote := l.quotes[a.quote].(status := Delivered)]
      && m.registry == l.registry[signature := a.quote]
  {
    assert LiveOwnsEverything(l, attempt);
  }

  /** Its fence is gone and its job, on the research rail, is between payments. */
  ghost predicate Ended(l: Ledger, m: Ledger, attempt: Id)
    requires attempt in l.attempts
  {
    var a := l.attempts[attempt];
    && OnlyChanges(l, m, if a.job.Some? then {a.job.value} else {}, {}, {attempt}, {a.quote})
    && attempt in m.attempts && a.quote !in m.fences
    && (a.job.Some? ==>
          && a.job.value in l.jobs && a.job.value in m.jobs
          && m.jobs[a.job.value] == l.jobs[a.job.value].(status := Processing, active := None))
  }

  /** A release ends the attempt and keeps everything it recorded. */
  lemma ReleasedLeaves(l: Ledger, attempt: Id, expected: AttemptStatus, now: nat)
    requires Consistent(l) && ReleaseAttempt(l, attempt, expected, now).Ok?
    ensures attempt in l.attempts && l.attempts[attempt].status == expected
    ensures var m := ReleaseAttempt(l, attempt, expected, now).value;
      Ended(l, m, attempt) && m.attempts[attempt] == l.attempts[attempt].(status := Released)
  {
    assert LiveOwnsEverything(l, attempt);
  }

  /** Holding is taken for a job between payments or with a live payment, and makes a prepared payment ambiguous. */
  lemma HeldExactly(l: Ledger, job: Id)
    requires Consistent(l) && job in l.jobs
    ensures Hold(l, job).Ok? <==>
      || l.jobs[job].status in {Funded, Processing}
      || (&& HoldsPayment(l.jobs[job].status) && l.jobs[job].active.Some?
          && var (quote, attempt) := l.jobs[job].active.value;
          && attempt in l.attempts && l.attempts[attempt].job == Some(job) && l.attempts[attempt].quote == quote
          && l.attempts[attempt].status in {Claimed, Prepared, Ambiguous})
    ensures Hold(l, job).Ok? && l.jobs[job].status in {Funded, Processing} ==> Hold(l, job).value == l
    ensures Hold(l, job).Ok? && l.jobs[job].status !in {Funded, Processing} ==>
      var attempt, m := l.jobs[job].active.value.1, Hold(l, job).value;
      && OnlyChanges(l, m, {job}, {}, {attempt}, {})
      && job in m.jobs && m.jobs[job] == l.jobs[job].(status := PaymentReconciliation)
      && attempt in m.attempts
      && m.attempts[attempt]
        == l.attempts[attempt].(status := if l.attempts[attempt].status == Claimed then Claimed else Ambiguous)
  {
  }

  /** Failing is taken exactly while no payment is held, and closes an open job with what is left of its budget. */
  lemma FailedExactly(l: Ledger, job: Id, prepaid: bool)
    requires job in l.jobs
    ensures Fail(l, job, prepaid).Ok? <==> l.jobs[job].status !in {PaymentInProgress, PaymentReconciliation}
    ensures Fail(l, job, prepaid).Ok? ==>
      var j, m := l.jobs[job], Fail(l, job, prepaid).value;
      && OnlyChanges(l, m, {job}, {}, {}, {}) && job in m.jobs
      && (if j.status in {Funded, Processing} then
            && IsClosed(m.jobs[job]) && (Spent(l, j) <= Budget(j) ==> m.jobs[job].refund + Spent(l, j) == Budget(j))
            && (m.jobs[job].status == Completed <==> !prepaid && Spent(l, j) >= Budget(j))
            && (m.jobs[job].status == BalanceRefunded <==> prepaid)
            && m.jobs[job] == j.(status := m.jobs[job].status, refund := m.jobs[job].refund)
          else m == l)
  {
    hide Budget, Spent;
  }

  /** Completing is taken exactly when every document of the bundle is delivered and no payment is open. */
  lemma CompletedExactly(l: Ledger, job: Id)
    requires job in l.jobs
    ensures Complete(l, job).Ok? <==>
      && l.jobs[job].status in {Processing, Completed}
      && forall d :: d in l.jobs[job].documents ==> DocumentDelivered(l, l.jobs[job], d.id)
    ensures Complete(l, job).Ok? ==>
      var m := Complete(l, job).value;
      && OnlyChanges(l, m, {job}, {}, {}, {}) && job in m.jobs && m.jobs[job] == l.jobs[job].(status := Completed)
  {
    var documents := l.jobs[job].documents;
    assert forall k :: 0 <= k < |documents| ==> documents[k] in documents;
    hide DocumentDelivered;
  }

  /** A document moves to a new quote unless the old one is being paid or was delivered. */
  lemma ListedExactly(l: Ledger, job: Id, quote: Id)
    requires job in l.jobs && quote in l.quotes
    ensures ListQuote(l, job, quote).Ok? <==> exists d :: d in l.jobs[job].documents && d.id == l.quotes[quote].document
    ensures ListQuote(l, job, quote).Ok? ==>
      var j, document, m := l.jobs[job], l.quotes[quote].document, ListQuote(l, job, quote).value;
      var stays := document in j.listed && (
          || j.listed[document] in l.fences
          || (j.listed[document] in l.quotes && l.quotes[j.listed[document]].status == Delivered));
      && OnlyChanges(l, m, {job}, {}, {}, {}) && job in m.jobs
      && m.jobs[job] == j.(listed := if stays then j.listed else j.listed[document := quote])
  {
    var documents := l.jobs[job].documents;
    assert forall k :: 0 <= k < |documents| ==> documents[k] in documents;
  }

  /** A quote goes to the rail exactly when no other quote of its purchase is there. */
  lemma BoundExactly(l: Ledger, quote: Id)
    requires quote in l.quotes
    ensures BindQuote(l, quote).Ok? <==>
      || l.quotes[quote].bound
      || forall q :: q in l.quotes && l.quotes[q].bound ==> l.quotes[q].document != l.quotes[quote].document
    ensures BindQuote(l, quote).Ok? ==>
      var m := BindQuote(l, quote).value;
      && OnlyChanges(l, m, {}, {quote}, {}, {}) && quote in m.quotes
      && m.quotes[quote] == l.quotes[quote].(bound := true)
  {
  }

  /** A quote is minted under a new id only, unpaid and off the rail. */
  lemma MintedExactly(l: Ledger, quote: Id, document: Id, amount: nat, expiresAt: nat)
    ensures NewQuote(l, quote, document, amount, expiresAt).Ok? <==> quote !in l.quotes
    ensures NewQuote(l, quote, document, amount, expiresAt).Ok? ==>
      var m := NewQuote(l, quote, document, amount, expiresAt).value;
      && OnlyChanges(l, m, {}, {quote}, {}, {}) && quote in m.quotes
      && m.quotes[quote] == Quote(Quoted, expiresAt, document, amount, false)
  {
  }

  /** A plan is given out exactly for a job between payments. */
  lemma PlannedExactly(l: Ledger, job: Id)
    requires job in l.jobs
    ensures Plan(l, job).Ok? <==> l.jobs[job].status in {Funded, Processing}
    ensures Plan(l, job).Ok? ==>
      var m := Plan(l, job).value;
      && OnlyChanges(l, m, {job}, {}, {}, {}) && job in m.jobs && m.jobs[job] == l.jobs[job].(status := Processing)
  {
  }

  /** A bundle is taken exactly when it names each document once, at a price, and nobody is buying one of them. */
  lemma BundledExactly(l: Ledger, job: Id, documents: seq<Document>, now: nat)
    ensures NewBundle(l, job, documents, now).Ok? <==>
      && job !in l.jobs && documents != []
      && (forall d :: d in documents ==> d.price > 0)
      && (forall i, k :: 0 <= i < k < |documents| ==> documents[i].id != documents[k].id)
      && (forall d, j :: d in documents && j in l.jobs && HasDocument(l.jobs[j].documents, d.id) ==>
            l.jobs[j].status == BalanceRefunded)
      && (forall d, q :: d in documents && q in l.quotes && l.quotes[q].document == d.id ==>
            q !in l.fences && !l.quotes[q].bound && l.quotes[q].status == Quoted && l.quotes[q].expiresAt <= now)
    ensures NewBundle(l, job, documents, now).Ok? ==>
      var m := NewBundle(l, job, documents, now).value;
      && OnlyChanges(l, m, {job}, {}, {}, {}) && job in m.jobs && m.jobs[job] == Job(Funded, None, documents, map[], 0)
  {
    assert forall k :: 0 <= k < |documents| ==> documents[k] in documents;
    hide HasDocument;
  }
}
