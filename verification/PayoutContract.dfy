/**
 * The claim rows' contract (backend/src/store.rs): exactly when each request is
 * taken and what it leaves, when evidence may go, and that no claim is tried
 * more than ten times in any run.
 */
module PayoutContract {
  import opened Wrappers
  import opened Payout

  // ---- leasing ----

  /** Leased once, and the time is over. */
  predicate Returned(c: Claim, now: nat) {
    c.status == Leased && c.leaseExpiresAt <= now
  }

  /** Nothing was ever prepared, or everything about the last transaction is there. */
  predicate Workable(c: Claim, now: nat) {
    || (NoEvidence(c) && c.absenceObservedAt.None? && (c.status in {Pending, Failed} || Returned(c, now)))
    || (WholeEvidence(c) && c.attempts > 0 && (c.status == Prepared || Returned(c, now)))
  }

  lemma LeasedExactly(c: Claim, worker: Id, now: nat, expiresAt: nat)
    ensures Lease(c, worker, now, expiresAt).Some? <==>
      && c.attempts < MAX_ATTEMPTS && Workable(c, now)
      && (c.leaseOwner.Some? && c.status != Leased ==> c.leaseExpiresAt <= now)
    ensures Lease(c, worker, now, expiresAt).Some? ==>
      var r := Lease(c, worker, now, expiresAt).value;
      && r.leaseOwner == Some(worker) && r.leaseExpiresAt == expiresAt
      && r.status == (if NoEvidence(c) then Leased else Prepared)
      && SameEvidence(c, r) && r.attempts == c.attempts && r.absenceObservedAt == c.absenceObservedAt
  {
  }

  predicate SameEvidence(c: Claim, r: Claim) {
    && r.signature == c.signature && r.bytes == c.bytes && r.blockhash == c.blockhash && r.lastValid == c.lastValid
    && r.preparedAt == c.preparedAt
  }

  // ---- what a prepared transaction goes through ----

  /** Every field a request leaves alone, but for those named. */
  lemma PreparedExactly(c: Claim, worker: Id, tx: Tx, blockhash: string, lastValid: nat, now: nat)
    ensures PrepareClaim(c, worker, tx, blockhash, lastValid, now).Some? <==>
      && c.leaseOwner == Some(worker) && now < c.leaseExpiresAt && lastValid > 0
      && (c.status == Leased || (c.status == Prepared && c.signature == Some(tx) && c.bytes == Some(tx)))
    ensures PrepareClaim(c, worker, tx, blockhash, lastValid, now).Some? ==>
      var r := PrepareClaim(c, worker, tx, blockhash, lastValid, now).value;
      && r.status == Prepared && r.signature == r.bytes == Some(tx)
      && r.leaseOwner == c.leaseOwner && r.leaseExpiresAt == c.leaseExpiresAt
      && (c.status == Prepared ==> r == c)
      && (c.status == Leased ==>
            && r.blockhash == Some(blockhash) && r.lastValid == Some(lastValid) && r.preparedAt == now
            && r.attempts == c.attempts + 1 && r.absenceObservedAt.None?)
  {
  }

  lemma CompletedExactly(c: Claim, worker: Id, tx: Tx, now: nat)
    ensures CompleteClaim(c, worker, tx, now).Some? <==>
      && c.signature == Some(tx)
      && (c.status == Settled || (c.status == Prepared && c.leaseOwner == Some(worker) && now < c.leaseExpiresAt))
    ensures CompleteClaim(c, worker, tx, now).Some? ==>
      var r := CompleteClaim(c, worker, tx, now).value;
      && r.status == Settled && r.signature == Some(tx) && r.attempts == c.attempts
      && (c.status == Settled ==> r == c)
      && (c.status != Settled ==> r.bytes.None? && r.leaseOwner.None? && r.absenceObservedAt.None?)
  {
  }

  /** Two absences, the first after the transaction was prepared and two minutes before the second. */
  predicate AbsentLongEnough(c: Claim, now: nat) {
    c.absenceObservedAt.Some? && c.preparedAt <= c.absenceObservedAt.value
    && c.absenceObservedAt.value + 120_000 <= now
  }

  lemma AbandonedExactly(c: Claim, worker: Id, now: nat)
    requires c.status != Settled
    ensures FailClaim(c, worker, true, now).Some? <==>
      && c.leaseOwner == Some(worker) && now < c.leaseExpiresAt
      && c.status == Prepared && c.signature.Some? && c.bytes.Some?
      && (c.absenceObservedAt.Some? ==> c.preparedAt <= c.absenceObservedAt.value <= now)
    ensures FailClaim(c, worker, true, now).Some? ==>
      var r := FailClaim(c, worker, true, now).value;
      && r.leaseOwner.None? && r.attempts == c.attempts
      && (if AbsentLongEnough(c, now)
          then r.status == Failed && NoEvidence(r) && r.absenceObservedAt.None?
          else r.status == Prepared && SameEvidence(c, r)
               && r.absenceObservedAt == (if c.absenceObservedAt.Some? then c.absenceObservedAt else Some(now)))
  {
  }

  /** A report without a look keeps a prepared transaction and forgets a noted absence. */
  lemma GivenUpExactly(c: Claim, worker: Id, now: nat)
    requires c.status != Settled
    ensures FailClaim(c, worker, false, now).Some? <==> c.leaseOwner == Some(worker) && now < c.leaseExpiresAt
    ensures FailClaim(c, worker, false, now).Some? ==>
      var r := FailClaim(c, worker, false, now).value;
      && r.leaseOwner.None? && SameEvidence(c, r) && r.absenceObservedAt.None?
      && (if c.bytes.None? then r.status == Failed && r.attempts == c.attempts + 1
          else r.status == Prepared && r.attempts == c.attempts)
  {
  }

  /** A settled claim is out of reach: it is not leased, and no request changes it. */
  lemma SettledIsFinal(c: Claim, r: Request, worker: Id, now: nat, expiresAt: nat)
    requires c.status == Settled
    ensures Lease(c, worker, now, expiresAt).None?
    ensures Executed(c, r, now).Some? ==> Executed(c, r, now).value == c
  {
  }

  // ---- what a worker does with its row ----

  /** A new transaction is built only without any evidence, the chain is asked only with all of it. */
  lemma ChosenExactly(row: Claim)
    ensures ChooseStep(row) == BuildNew <==>
      row.status == Leased && row.signature.None? && row.bytes.None? && row.blockhash.None? && row.lastValid.None?
    ensures ChooseStep(row) == ObserveFirst <==>
      && row.status == Prepared
      && row.signature.Some? && row.bytes.Some? && row.blockhash.Some? && row.lastValid.Some? && row.lastValid.value > 0
  {
  }

  /**
   * A look that is taken asks for one thing: to settle or to abandon the very
   * transaction looked at, or to have it sent once more.
   */
  lemma LookedExactly(w: World, s: State, pass: Id, views: seq<Option<View>>, statusView: nat, heightView: nat)
    requires ValidWorld(w) && pass in s.passes && LookStep(w, s, pass, views, statusView, heightView).Some?
    ensures var p, t := s.passes[pass], LookStep(w, s, pass, views, statusView, heightView).value;
      && ChooseStep(p.row) == ObserveFirst
      && t == s.(requests := t.requests, passes := t.passes)
      && match Observe(views, p.row.lastValid.value)
         case Inconclusive => t.requests == s.requests && t.passes == s.passes[pass := p.(sending := p.row.signature)]
         case Paid =>
           t.passes == s.passes
           && t.requests == s.requests + {Request(p.worker, p.claim, p.lease, Completes(p.row.signature.value))}
         case AbsentOrFailed =>
           && t.passes == s.passes
           && t.requests == s.requests + {Request(p.worker, p.claim, p.lease,
                                                  Abandons(p.row.signature.value, p.row.absenceObservedAt.Some?))}
  {
    hide Observe, TruthfulView;
  }

  // ---- ten tries ----

  /** A lease without a transaction is one more try to come. */
  predicate Tried(c: Claim) {
    && c.attempts <= MAX_ATTEMPTS
    && (c.status == Leased && c.leaseOwner.Some? ==> c.attempts < MAX_ATTEMPTS)
    && (c.leaseOwner.Some? ==> c.status == Leased || (c.status == Prepared && c.bytes.Some?))
    && (c.status == Leased ==> c.bytes.None?)
  }

  lemma LeasingKeepsTried(c: Claim, worker: Id, now: nat, expiresAt: nat)
    requires Tried(c) && Lease(c, worker, now, expiresAt).Some?
    ensures Tried(Lease(c, worker, now, expiresAt).value)
  {
  }

  lemma ExecutingKeepsTried(c: Claim, r: Request, now: nat)
    requires Tried(c) && Executed(c, r, now).Some?
    ensures Tried(Executed(c, r, now).value)
    ensures c.attempts <= Executed(c, r, now).value.attempts <= c.attempts + 1
  {
  }

  predicate AllTried(s: State) {
    forall claim :: claim in s.claims ==> Tried(s.claims[claim])
  }

  lemma StepKeepsTried(w: World, s: State, e: Event)
    requires ValidWorld(w) && AllTried(s) && Step(w, s, e).Some?
    ensures AllTried(Step(w, s, e).value)
  {
    hide Tried, Lease, Executed, Observe, TruthfulView, ChooseStep, Awaits, NoEvidence, WholeEvidence;
    match e {
      case OnPass(pass, passEvent) =>
        if passEvent.TakeLease? {
          LeaseKeepsTried(s, pass, passEvent.worker, passEvent.claim, passEvent.expiresAt);
        } else {
          PassKeepsClaims(w, s, pass, passEvent);
        }
      case Executes(request, answered) => RequestKeepsTried(s, request, answered);
      case OnChain(chainEvent) =>
      case NewClaim(claim) => FreshIsTried();
    }
  }

  lemma FreshIsTried()
    ensures Tried(FreshClaim)
  {
  }

  lemma LeaseKeepsTried(s: State, pass: Id, worker: Id, claim: Id, expiresAt: nat)
    requires AllTried(s) && LeaseStep(s, pass, worker, claim, expiresAt).Some?
    ensures AllTried(LeaseStep(s, pass, worker, claim, expiresAt).value)
  {
    hide Tried, Lease;
    LeasingKeepsTried(s.claims[claim], worker, s.now, expiresAt);
  }

  lemma PassKeepsClaims(w: World, s: State, pass: Id, e: PassEvent)
    requires ValidWorld(w) && !e.TakeLease? && PassStep(w, s, pass, e).Some?
    ensures PassStep(w, s, pass, e).value.claims == s.claims
  {
    hide Observe, TruthfulView, ChooseStep;
  }

  lemma RequestKeepsTried(s: State, r: Request, answered: Option<Id>)
    requires AllTried(s) && ExecuteStep(s, r, answered).Some?
    ensures AllTried(ExecuteStep(s, r, answered).value)
  {
    hide Tried, Executed, Awaits;
    if Executed(s.claims[r.claim], r, s.now).Some? {
      ExecutingKeepsTried(s.claims[r.claim], r, s.now);
    }
  }

  /** In every run no claim is tried more than ten times, however requests travel and workers crash. */
  lemma {:induction false} TenTriesAtMost(w: World, events: seq<Event>)
    requires ValidWorld(w) && Run(w, events).Some?
    ensures AllTried(Run(w, events).value)
    ensures forall claim :: claim in Run(w, events).value.claims ==>
      Run(w, events).value.claims[claim].attempts <= MAX_ATTEMPTS
  {
    hide Step, Tried;
    if |events| > 0 {
      TenTriesAtMost(w, events[..|events| - 1]);
      StepKeepsTried(w, Run(w, events[..|events| - 1]).value, events[|events| - 1]);
    }
    forall claim | claim in Run(w, events).value.claims
      ensures Run(w, events).value.claims[claim].attempts <= MAX_ATTEMPTS
    {
      TriedIsBounded(Run(w, events).value.claims[claim]);
    }
  }

  lemma TriedIsBounded(c: Claim)
    ensures Tried(c) ==> c.attempts <= MAX_ATTEMPTS
  {
  }
}
