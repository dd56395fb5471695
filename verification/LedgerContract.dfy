/**
 * What a caller of the payment ledger can build on: how one operation of
 * backend/src/store.rs answers after another.
 */
module LedgerContract {
  import opened Wrappers
  import opened Reconciler
  import opened Ledger

  /** One live attempt per job and per quote: whoever begins second is refused, until the first has ended. */
  lemma BeginIsExclusive(l: Ledger, job: Id, quote: Id, attempt: Id, now: nat, other: Id, otherAttempt: Id, later: nat)
    requires Consistent(l) && Begin(l, job, quote, attempt, now).Ok? && otherAttempt != attempt
    ensures var m := Begin(l, job, quote, attempt, now).value;
      && Begin(m, other, quote, otherAttempt, later).Err?
      && Begin(m, job, quote, attempt, later) == Ok(m)
      && PrepareDirect(m, otherAttempt, quote, [], "", later).Err?
  {
    BeginKeeps(l, job, quote, attempt, now);
    var m := Begin(l, job, quote, attempt, now).value;
    assert LiveOwnsEverything(m, attempt);
  }

  /** Preparing is idempotent for identical bytes and refused for any others. */
  lemma PrepareBindsTheBytes(l: Ledger, job: Id, attempt: Id, quote: Id, message: Message, blockhash: Blockhash,
                             now: nat,
                             other: Message, later: nat)
    requires Prepare(l, job, attempt, quote, message, blockhash, now).Ok?
    ensures var m := Prepare(l, job, attempt, quote, message, blockhash, now).value;
      && m.attempts[attempt].message == Some(message)
      && Prepare(m, job, attempt, quote, message, blockhash, later) == Ok(m)
      && (other != message ==> Prepare(m, job, attempt, quote, other, blockhash, later).Err?)
  {
  }

  /** The first absence is kept with its time; a plain deferral never invents one. */
  lemma FirstAbsenceIsKept(l: Ledger, attempt: Id, now: nat, later: nat)
    requires DeferAttempt(l, attempt, true, now).Ok? && l.attempts[attempt].absenceObservedAt.None?
    ensures var m := DeferAttempt(l, attempt, true, now).value;
      && m.attempts[attempt].absenceObservedAt == Some(now)
      && DeferAttempt(m, attempt, true, later).Ok?
      && DeferAttempt(m, attempt, true, later).value.attempts[attempt].absenceObservedAt == Some(now)
    ensures DeferAttempt(l, attempt, false, now).Ok?
      && DeferAttempt(l, attempt, false, now).value.attempts[attempt].absenceObservedAt.None?
  {
  }

  /** A claim whose bytes were never prepared is released at once; prepared bytes only two minutes after an absence. */
  lemma ReleaseExactly(l: Ledger, attempt: Id, now: nat)
    requires Consistent(l) && attempt in l.attempts
    ensures var a := l.attempts[attempt];
      ReleaseAttempt(l, attempt, a.status, now).Ok? <==>
        && Live(a)
        && (a.status == Claimed
            || (&& a.absenceObservedAt.Some? && a.preparedAt <= a.absenceObservedAt.value
                && a.absenceObservedAt.value + ABSENCE_CONFIRMATION_MS <= now))
  {
    if Live(l.attempts[attempt]) {
      assert LiveOwnsEverything(l, attempt);
    }
  }

  /**
   * Recovery completes: an attempt whose payment never lands is observed absent
   * once, released two minutes later, and its job can begin the quote again.
   */
  lemma RecoveryCompletes(l: Ledger, attempt: Id, observedAt: nat, now: nat, retry: Id)
    requires Consistent(l) && attempt in l.attempts && l.attempts[attempt].status == Prepared
    requires var a := l.attempts[attempt];
      && a.job.Some? && a.absenceObservedAt.None?
      && a.preparedAt <= observedAt && observedAt + ABSENCE_CONFIRMATION_MS <= now
      && ListedUnder(l.jobs[a.job.value], l, a.quote) && l.quotes[a.quote].bound && now < l.quotes[a.quote].expiresAt
      && retry !in l.attempts
    ensures DeferAttempt(l, attempt, true, observedAt).Ok?
    ensures ReleaseAttempt(DeferAttempt(l, attempt, true, observedAt).value, attempt, Prepared, now).Ok?
    ensures var a := l.attempts[attempt];
      var released := ReleaseAttempt(DeferAttempt(l, attempt, true, observedAt).value, attempt, Prepared, now).value;
      Begin(released, a.job.value, a.quote, retry, now).Ok?
  {
    assert LiveOwnsEverything(l, attempt);
    DeferKeeps(l, attempt, true, observedAt);
    var observed := DeferAttempt(l, attempt, true, observedAt).value;
    assert LiveOwnsEverything(observed, attempt);
  }

  /** Settling delivers for good: the same settlement may be repeated, any other and any new payment is refused. */
  lemma SettlementIsFinal(l: Ledger, attempt: Id, signature: Signature, other: Signature, job: Id, retry: Id, now: nat)
    requires Consistent(l) && attempt in l.attempts && Live(l.attempts[attempt])
    requires SettleAttempt(l, attempt, signature).Ok?
    ensures var m := SettleAttempt(l, attempt, signature).value;
      var quote := l.attempts[attempt].quote;
      && m.quotes[quote].status == Delivered && m.registry[signature] == quote && quote !in m.fences
      && SettleAttempt(m, attempt, signature) == Ok(m)
      && (other != signature ==> SettleAttempt(m, attempt, other).Err?)
      && (retry !in m.attempts ==> Begin(m, job, quote, retry, now).Err?)
  {
    assert LiveOwnsEverything(l, attempt);
    SettleKeeps(l, attempt, signature);
    var m := SettleAttempt(l, attempt, signature).value;
  }

  /** A held or running payment keeps its job from being failed or completed. */
  lemma UnresolvedPaymentBlocksTheEnd(l: Ledger, attempt: Id, prepaid: bool)
    requires Consistent(l) && attempt in l.attempts && Live(l.attempts[attempt]) && l.attempts[attempt].job.Some?
    ensures var job := l.attempts[attempt].job.value;
      && job in l.jobs && Fail(l, job, prepaid).Err? && Complete(l, job).Err?
      && Hold(l, job).Ok? && Fail(Hold(l, job).value, job, prepaid).Err?
  {
    assert LiveOwnsEverything(l, attempt);
  }

  /**
   * The last statement of a failing call on its own, with what it made up its
   * mind about before: it does not look at the job's status again.
   */
  function LateFailure(l: Ledger, job: Id, ended: JobStatus, refund: nat): Ledger
    requires job in l.jobs
  {
    l.(jobs := l.jobs[job := l.jobs[job].(status := ended, refund := refund)])
  }

  /** That statement leaves the ledger consistent exactly when no payment of the job has begun. */
  lemma LateFailureExactly(l: Ledger, job: Id, ended: JobStatus, refund: nat)
    requires Consistent(l) && job in l.jobs
    requires ended == RefundPending || ended == Completed || ended == BalanceRefunded
    ensures Consistent(LateFailure(l, job, ended, refund)) <==> l.jobs[job].active.None?
  {
    var late := LateFailure(l, job, ended, refund);
    if l.jobs[job].active.None? {
      forall a | a in late.attempts && Live(late.attempts[a]) ensures LiveOwnsEverything(late, a) {
        assert LiveOwnsEverything(l, a);
      }
      forall a | a in late.attempts && late.attempts[a].status == Settled ensures SettledIsDelivered(late, a) {
        assert SettledIsDelivered(l, a);
      }
      assert OneSettlementPerQuote(late);
    } else {
      assert late.jobs[job].active.Some? && !HoldsPayment(late.jobs[job].status);
    }
  }

  /** A payment that began in between stays live, and can then neither be settled nor released. */
  lemma LateFailureStrandsThePayment(
    l: Ledger, attempt: Id, ended: JobStatus, refund: nat, later: nat, signature: Signature)
    requires Consistent(l) && attempt in l.attempts && Live(l.attempts[attempt]) && l.attempts[attempt].job.Some?
    requires ended == RefundPending || ended == Completed || ended == BalanceRefunded
    ensures var job := l.attempts[attempt].job.value;
      && job in l.jobs && l.jobs[job].active.Some?
      && var late := LateFailure(l, job, ended, refund);
      && Live(late.attempts[attempt])
      && SettleAttempt(late, attempt, signature).Err?
      && (forall expected :: ReleaseAttempt(late, attempt, expected, later).Err?)
  {
    assert LiveOwnsEverything(l, attempt);
  }
}
