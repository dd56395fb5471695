/**
 * What failing a job in two steps would do to the money. fail_research_job in
 * backend/src/store.rs reads the job's status, then updates its row without
 * comparing it again. Within one backend process its connection is locked all
 * the while; a second process on the same database could begin a payment in
 * between.
 */
module LateFailure {
  import opened Wrappers
  import opened Sums
  import opened Reconciler
  import opened Ledger
  import opened LedgerContract
  import opened Protocol
  import opened ProtocolSafety
  import opened ProtocolMoney
  import opened JobBalance

  /** The job is failed with its whole budget as refund, on a status read before the payment began. */
  function FailedLate(s: State, job: Id): State
    requires job in s.ledger.jobs
  {
    s.(ledger := LateFailure(s.ledger, job, RefundPending, Budget(s.ledger.jobs[job])))
  }

  predicate Strands(s: State, job: Id, attempt: Id) {
    && job in s.ledger.jobs && IsClosed(s.ledger.jobs[job]) && PaidForJob(s, job, attempt)
    && Live(s.ledger.attempts[attempt])
  }

  lemma SentIsBeginning(documents: seq<Document>, amounts: seq<nat>, i: nat)
    requires i < |documents| == |amounts|
    ensures var s := Sent(documents, amounts, i);
      && "j" in s.ledger.jobs && s.ledger.jobs["j"].documents == documents && s.network == {[7]}
      && s.chain == Chain(map[], map[], 0) && s.truthView == 0
      && "a" in s.ledger.attempts && s.ledger.attempts["a"] == JobBalance.Prepared(Name(i))
  {
  }

  /** What the landing shows: the message succeeded, while the attempt is prepared and its job closed. */
  lemma LandingStrands(s: State, quote: Id)
    requires "j" in s.ledger.jobs && "a" in s.ledger.attempts && s.ledger.attempts["a"] == JobBalance.Prepared(quote)
    ensures var t := Landed(FailedLate(s, "j"));
      && Strands(t, "j", "a") && t.ledger.jobs["j"].refund == Budget(s.ledger.jobs["j"])
      && Budget(t.ledger.jobs["j"]) == Budget(s.ledger.jobs["j"])
  {
  }

  lemma LandingAmount(documents: seq<Document>, amounts: seq<nat>, i: nat)
    requires i < |documents| == |amounts|
    ensures AmountPaid(Landed(FailedLate(Sent(documents, amounts, i), "j")).ledger)("a") == amounts[i]
  {
    QuotesAre(documents, amounts, |documents|);
    hide QuotesUpTo, ListedUpTo, Name;
  }

  /** Two events of the chain from a state with the bytes on the wire. */
  lemma LandsAfter(w: World, s: State)
    requires ValidWorld(w) && s.network == {[7]} && s.chain == Chain(map[], map[], 0) && s.truthView == 0
    ensures var landing := s.(chain := Chain(map[[7] := Landing(1, true, [1])], map[], 1));
      && Step(w, s, OnChain(Land([7], true, [1]))) == Some(landing)
      && Step(w, landing, OnChain(TruthCatchesUp(1))) == Some(Landed(s))
  {
    assert s.chain.landed[[7] := Landing(1, true, [1])] == map[[7] := Landing(1, true, [1])];
  }

  /**
   * A reachable state in which the bytes are on the wire, the late failure, and
   * two events of the chain: the job is refunded in full, its payment succeeded,
   * and the attempt is stranded. A closed job then owes something, and payments
   * and refund exceed the budget by what was paid.
   */
  lemma RefundedAndPaid(w: World, documents: seq<Document>, amounts: seq<nat>, i: nat)
    returns (events: seq<Event>, s: State, t: State)
    requires ValidWorld(w) && Affordable(documents, amounts) && i < |documents|
    ensures Run(w, events) == Some(s) && "j" in s.ledger.jobs
    ensures exists landing ::
      && Step(w, FailedLate(s, "j"), OnChain(Land([7], true, [1]))) == Some(landing)
      && Step(w, landing, OnChain(TruthCatchesUp(1))) == Some(t)
    ensures Strands(t, "j", "a")
    ensures AmountPaid(t.ledger)("a") + t.ledger.jobs["j"].refund == Budget(t.ledger.jobs["j"]) + amounts[i]
  {
    events := SendsOne(w, documents, amounts, i);
    s := Sent(documents, amounts, i);
    SentIsBeginning(documents, amounts, i);
    LandingStrands(s, Name(i));
    LandingAmount(documents, amounts, i);
    hide Run, Step, Sent, Strands, AmountPaid, Affordable, SumOf, Name, Budget;
    t := Landed(FailedLate(s, "j"));
    LandsAfter(w, FailedLate(s, "j"));
  }
}
