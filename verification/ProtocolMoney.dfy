/**
 * Money over every run of the payment protocol: a purchase is paid at most once
 * however often it is quoted, no job spends more than it was funded with, and
 * when a job is closed, what was bought and what is given back make up its budget.
 */
module ProtocolMoney {
  import opened Wrappers
  import opened Sorting
  import opened Sums
  import opened Reconciler
  import opened Ledger
  import opened Protocol
  import opened ProtocolSafety
  import opened MoneyInvariant

  // ---- every event ----

  lemma JobMoney(l: Ledger, plans: Plans, e: JobEvent, now: nat)
    requires Consistent(l) && MoneySound(l, plans) && DeliveredBySettlement(l) && JobStep(l, e, now).Ok?
    requires e.BeginPayment? ==> e.job in plans
    ensures MoneySound(JobStep(l, e, now).value, plans)
  {
    OfLedger(l, plans);
    hide Consistent, MoneySound, DeliveredBySettlement, BoundOnce, Exclusive, SameMoney;
    hide NewBundle, NewQuote, Plan, ListQuote, BindQuote, Begin, Hold, Fail, Complete;
    match e {
      case NewJob(job, documents) => BundleMoney(l, plans, job, documents, now);
      case MintQuote(quote, document, amount, expiresAt) => MintMoney(l, plans, quote, document, amount, expiresAt);
      case PlanJob(job) =>
        QuietPlanning(l, job);
        QuietKeeps(l, JobStep(l, e, now).value, plans);
      case ListFor(job, quote) => ListMoney(l, plans, job, quote);
      case Bind(quote) => BindMoney(l, plans, quote);
      case BeginPayment(job, quote, attempt) => BeginMoney(l, plans, job, quote, attempt, now);
      case HoldJob(job) =>
        QuietHold(l, job);
        QuietKeeps(l, JobStep(l, e, now).value, plans);
      case FailJob(job, prepaid) => FailMoney(l, plans, job, prepaid);
      case CompleteJob(job) => CompleteMoney(l, plans, job);
    }
  }

  lemma PrepareMoney(l: Ledger, plans: Plans, f: Fence, now: nat)
    requires MoneySound(l, plans) && f.Entered? && PrepareFenced(l, f, now).Ok?
    ensures MoneySound(PrepareFenced(l, f, now).value, plans)
  {
    OfLedger(l, plans);
    hide MoneySound, BoundOnce, Exclusive, SameMoney, Prepare, PrepareDirect;
    if f.job.Some? {
      QuietResearchPrepare(l, f.job.value, f.attempt, f.quote, f.message, f.blockhash, now);
      QuietKeeps(l, PrepareFenced(l, f, now).value, plans);
    } else {
      DirectMoney(l, plans, f.attempt, f.quote, f.message, f.blockhash, now);
    }
  }

  lemma DeferMoney(l: Ledger, plans: Plans, attempt: Id, now: nat)
    requires MoneySound(l, plans)
    ensures MoneySound(DeferOrLeave(l, attempt, now), plans)
  {
    OfLedger(l, plans);
    hide MoneySound, BoundOnce, Exclusive, SameMoney, DeferAttempt;
    if DeferAttempt(l, attempt, false, now).Ok? {
      QuietDeferral(l, attempt, false, now);
      QuietKeeps(l, DeferAttempt(l, attempt, false, now).value, plans);
    }
  }

  lemma SettleMoney(l: Ledger, plans: Plans, attempt: Id, signature: Signature)
    requires MoneySound(l, plans) && SettleAttempt(l, attempt, signature).Ok?
    ensures MoneySound(SettleAttempt(l, attempt, signature).value, plans)
  {
    assert attempt in l.attempts;
    OfLedger(l, plans);
    OfAttempt(l, plans, attempt);
    hide MoneySound, BoundOnce, Exclusive, SameMoney, SettleAttempt;
    QuietSettlement(l, attempt, signature);
    QuietKeeps(l, SettleAttempt(l, attempt, signature).value, plans);
  }

  /** Whatever a pass does is quiet: it defers, releases or settles. */
  lemma PassMoney(w: World, s: State, plans: Plans, p: Pass)
    requires MoneySound(s.ledger, plans) && Decided(w, p)
    ensures MoneySound(LedgerAfter(w, s, p), plans)
  {
    var l := s.ledger;
    var r := Act(w, l, p, s.now);
    OfLedger(l, plans);
    hide MoneySound, BoundOnce, Exclusive, SameMoney, SettleAttempt, DeferAttempt, ReleaseAttempt, DeferOrLeave;
    if r.Err? {
      DeferMoney(l, plans, p.attempt, s.now);
    } else if p.phase.Scanned? && AfterScans(p.phase.scans).Settle? {
      SettleMoney(l, plans, p.attempt, AfterScans(p.phase.scans).signature);
    } else {
      var expected := if p.phase.Listed? then Claimed else p.row.status;
      if r == ReleaseAttempt(l, p.attempt, expected, s.now) {
        QuietRelease(l, p.attempt, expected, s.now);
      } else if r == DeferAttempt(l, p.attempt, true, s.now) {
        QuietDeferral(l, p.attempt, true, s.now);
      } else {
        QuietDeferral(l, p.attempt, false, s.now);
      }
      QuietKeeps(l, r.value, plans);
    }
  }

  lemma FenceMoney(s: State, fence: Id, e: FenceEvent)
    requires MoneySound(s.ledger, s.accepted) && FenceStep(s, fence, e).Some?
    ensures var t := FenceStep(s, fence, e).value; MoneySound(t.ledger, s.accepted) && t.accepted == s.accepted
  {
    hide MoneySound, PrepareFenced;
    if e.Prepares? && PrepareFenced(s.ledger, s.fences[fence], s.now).Ok? {
      PrepareMoney(s.ledger, s.accepted, s.fences[fence], s.now);
    }
  }

  lemma OnPassMoney(w: World, s: State, pass: Id, e: PassEvent)
    requires ValidWorld(w) && MoneySound(s.ledger, s.accepted) && PassStep(w, s, pass, e).Some?
    ensures var t := PassStep(w, s, pass, e).value; MoneySound(t.ledger, s.accepted) && t.accepted == s.accepted
  {
    hide MoneySound, DeferOrLeave, NextPhase, LedgerAfter, Decided;
    if e.Acts? {
      PassMoney(w, s, s.accepted, s.passes[pass]);
    } else if e.Defers? {
      DeferMoney(s.ledger, s.accepted, s.passes[pass].attempt, s.now);
    }
  }

  lemma GatewayMoney(s: State, attempt: Id)
    requires MoneySound(s.ledger, s.accepted) && GatewayStep(s, attempt).Ok?
    ensures MoneySound(GatewayStep(s, attempt).value, s.accepted)
  {
    hide MoneySound, SettleAttempt;
    SettleMoney(s.ledger, s.accepted, attempt, s.chain.landed[s.ledger.attempts[attempt].message.value].signature);
  }

  lemma ChainLeavesLedger(w: World, s: State, e: ChainEvent)
    requires ChainStep(w, s, e).Some?
    ensures ChainStep(w, s, e).value.ledger == s.ledger && ChainStep(w, s, e).value.accepted == s.accepted
  {
  }

  lemma StepMoney(w: World, s: State, e: Event, t: State)
    requires ValidWorld(w) && Invariant(w, s) && DeliveredBySettlement(s.ledger) && MoneySound(s.ledger, s.accepted)
    requires Step(w, s, e) == Some(t)
    ensures MoneySound(t.ledger, t.accepted)
  {
    hide Invariant, Consistent, MoneySound, DeliveredBySettlement, PlanFits;
    hide JobStep, FenceStep, PassStep, ChainStep, GatewayStep;
    LedgerIsConsistent(w, s);
    match e {
      case OnJob(jobEvent) => JobMoney(s.ledger, s.accepted, jobEvent, s.now);
      case OnFence(fence, fenceEvent) => FenceMoney(s, fence, fenceEvent);
      case OnPass(pass, passEvent) => OnPassMoney(w, s, pass, passEvent);
      case OnChain(chainEvent) => ChainLeavesLedger(w, s, chainEvent);
      case GatewayDelivers(attempt) => GatewayMoney(s, attempt);
      case AcceptPlan(job, quotes) =>
        if job !in s.accepted {
          AcceptMoney(s.ledger, s.accepted, job, quotes);
        }
    }
  }

  lemma {:induction false} RunMoney(w: World, events: seq<Event>)
    requires ValidWorld(w) && Run(w, events).Some?
    ensures MoneySound(Run(w, events).value.ledger, Run(w, events).value.accepted)
  {
    if events == [] {
      assert Run(w, events) == Some(Start);
    } else {
      var before := events[..|events| - 1];
      assert Run(w, before).Some? && Step(w, Run(w, before).value, events[|events| - 1]) == Run(w, events);
      hide *;
      RunMoney(w, before);
      RunKeeps(w, before);
      RunDelivers(w, before);
      StepMoney(w, Run(w, before).value, events[|events| - 1], Run(w, events).value);
    }
  }

  // ---- what it means ----

  /** The attempt's bytes succeeded on chain. */
  predicate PaidOnChain(s: State, attempt: Id) {
    && attempt in s.ledger.attempts && s.ledger.attempts[attempt].message.Some?
    && Succeeded(s.chain, s.ledger.attempts[attempt].message.value)
  }

  predicate PaidForJob(s: State, job: Id, attempt: Id) {
    PaidOnChain(s, attempt) && s.ledger.attempts[attempt].job == Some(job)
  }

  function DocumentOf(l: Ledger, attempt: Id): Option<Id> {
    if attempt in l.attempts && l.attempts[attempt].quote in l.quotes
    then Some(l.quotes[l.attempts[attempt].quote].document) else None
  }

  /**
   * No purchase is paid twice: however often a document of a query is quoted,
   * over both rails at most one attempt for it ever succeeds on chain.
   */
  lemma NoDocumentIsPaidTwice(w: World, events: seq<Event>, a: Id, b: Id)
    requires ValidWorld(w) && Run(w, events).Some?
    requires var s := Run(w, events).value;
      PaidOnChain(s, a) && PaidOnChain(s, b) && DocumentOf(s.ledger, a) == DocumentOf(s.ledger, b)
    ensures a == b
  {
    hide Run;
    var s := Run(w, events).value;
    RunMoney(w, events);
    OfAttempt(s.ledger, s.accepted, a);
    OfAttempt(s.ledger, s.accepted, b);
    OfLedger(s.ledger, s.accepted);
    hide MoneySound, Succeeded;
    assert s.ledger.attempts[a].quote == s.ledger.attempts[b].quote;
    NoQuoteIsPaidTwice(w, events, a, b);
  }

  function AmountPaid(l: Ledger): Id -> nat {
    (a: Id) =>
      if a in l.attempts && l.attempts[a].quote in l.quotes then l.quotes[l.attempts[a].quote].amount else 0
  }

  function QuotesOf(l: Ledger, attempts: seq<Id>): (r: seq<Id>)
    requires forall a :: a in attempts ==> a in l.attempts
    ensures |r| == |attempts| && forall i :: 0 <= i < |r| ==> r[i] == l.attempts[attempts[i]].quote
  {
    seq(|attempts|, i requires 0 <= i < |attempts| => l.attempts[attempts[i]].quote)
  }

  /** What succeeded on chain for a job, in any run, stays within the job's funded budget. */
  lemma JobStaysWithinBudget(w: World, events: seq<Event>, job: Id, paid: seq<Id>)
    requires ValidWorld(w) && Run(w, events).Some? && job in Run(w, events).value.ledger.jobs
    requires NoRepeats(paid) && forall a :: a in paid ==> PaidForJob(Run(w, events).value, job, a)
    ensures SumOf(paid, AmountPaid(Run(w, events).value.ledger)) <= Budget(Run(w, events).value.ledger.jobs[job])
  {
    hide Run;
    var s := Run(w, events).value;
    var l := s.ledger;
    RunMoney(w, events);
    if |paid| > 0 {
      var quotes := QuotesOf(l, paid);
      assert paid[0] in paid;
      forall i | 0 <= i < |quotes| ensures job in s.accepted && quotes[i] in s.accepted[job] {
        assert paid[i] in paid;
        OfAttempt(l, s.accepted, paid[i]);
      }
      OfPlan(l, s.accepted, job);
      hide MoneySound, Succeeded, AttemptSound;
      forall i, k | 0 <= i < k < |quotes| ensures quotes[i] != quotes[k] {
        assert paid[i] in paid && paid[k] in paid;
        if quotes[i] == quotes[k] {
          NoQuoteIsPaidTwice(w, events, paid[i], paid[k]);
        }
      }
      forall i | 0 <= i < |paid| ensures AmountPaid(l)(paid[i]) == AmountIn(l)(quotes[i]) {
        assert paid[i] in paid;
      }
      SumOfMapped(paid, quotes, AmountPaid(l), AmountIn(l));
      SumOfPart(quotes, s.accepted[job], AmountIn(l));
    }
  }

  // ---- the books of a closed job ----

  /** The bundle's own price of the document that an attempt pays for. */
  function PricePaid(l: Ledger, documents: seq<Document>): Id -> nat {
    (a: Id) => if DocumentOf(l, a).Some? then PriceIn(documents, DocumentOf(l, a).value) else 0
  }

  function PriceIn(documents: seq<Document>, id: Id): nat {
    if |documents| == 0 then 0 else if documents[0].id == id then documents[0].price else PriceIn(documents[1..], id)
  }

  lemma {:induction false} PriceFound(documents: seq<Document>, k: nat)
    requires k < |documents| && ValidBundle(documents)
    ensures PriceIn(documents, documents[k].id) == documents[k].price
  {
    if k > 0 {
      PriceFound(documents[1..], k - 1);
    }
  }

  /** The document rows that attempts pay for, one for each. */
  lemma RowsOf(documents: seq<Document>, ids: seq<Id>) returns (rows: seq<Document>)
    requires ValidBundle(documents) && forall d :: d in ids ==> HasDocument(documents, d)
    ensures |rows| == |ids| && forall i :: 0 <= i < |rows| ==>
      rows[i] in documents && rows[i].id == ids[i] && PriceIn(documents, ids[i]) == rows[i].price
  {
    rows := [];
    if |ids| > 0 {
      var init, last := ids[..|ids| - 1], ids[|ids| - 1];
      rows := RowsOf(documents, init);
      assert last in ids;
      var k :| 0 <= k < |documents| && documents[k].id == last;
      PriceFound(documents, k);
      rows := rows + [documents[k]];
    }
  }

  /** `paid` names every attempt of the job that succeeded on chain, each once. */
  ghost predicate AllPaid(s: State, job: Id, paid: seq<Id>) {
    NoRepeats(paid) && forall a :: a in paid <==> PaidForJob(s, job, a)
  }

  /**
   * Closing a job balances its books: the bundle's prices of what succeeded on
   * chain and what was given back are the funded budget.
   */
  lemma BooksBalance(w: World, events: seq<Event>, job: Id, paid: seq<Id>)
    requires ValidWorld(w) && Run(w, events).Some?
    requires var s := Run(w, events).value;
      job in s.ledger.jobs && IsClosed(s.ledger.jobs[job]) && AllPaid(s, job, paid)
    ensures var l := Run(w, events).value.ledger;
      SumOf(paid, PricePaid(l, l.jobs[job].documents)) + l.jobs[job].refund == Budget(l.jobs[job])
  {
    hide *;
    var s := Run(w, events).value;
    var l, j := s.ledger, s.ledger.jobs[job];
    RunMoney(w, events);
    OfJob(l, s.accepted, job);
    var bought := BooksOf(l, job);
    var ids := PaidDocuments(w, events, job, paid, bought);
    var rows := RowsOf(j.documents, ids);
    forall i | 0 <= i < |paid| ensures PricePaid(l, j.documents)(paid[i]) == PriceOf(rows[i]) {
      PriceOfRow(l, j.documents, paid[i], rows[i]);
    }
    SumOfMapped(paid, rows, PricePaid(l, j.documents), PriceOf);
    SameRows(j.documents, bought, rows, ids);
  }

  lemma BooksOf(l: Ledger, job: Id) returns (bought: seq<Document>)
    requires job in l.jobs && JobSound(l.jobs[job], l) && Books(l, job)
    ensures BooksAt(l, job, bought) && NoRepeats(bought) && ValidBundle(l.jobs[job].documents)
    ensures forall d :: d in bought ==> d in l.jobs[job].documents && HasDocument(l.jobs[job].documents, d.id)
    ensures SumOf(bought, PriceOf) + l.jobs[job].refund == Budget(l.jobs[job])
    ensures forall d :: HasDocument(bought, d) ==> HasDocument(l.jobs[job].documents, d)
  {
    bought :| BooksAt(l, job, bought);
    forall d | HasDocument(bought, d) ensures HasDocument(l.jobs[job].documents, d) {
      var k :| 0 <= k < |bought| && bought[k].id == d;
      assert bought[k] in l.jobs[job].documents;
    }
  }

  lemma PriceOfRow(l: Ledger, documents: seq<Document>, attempt: Id, row: Document)
    requires DocumentOf(l, attempt) == Some(row.id) && PriceIn(documents, row.id) == row.price
    ensures PricePaid(l, documents)(attempt) == PriceOf(row)
  {
  }

  /** The documents paid for are those bought, each by one attempt. */
  lemma PaidDocuments(w: World, events: seq<Event>, job: Id, paid: seq<Id>, bought: seq<Document>)
    returns (ids: seq<Id>)
    requires ValidWorld(w) && Run(w, events).Some?
    requires var s := Run(w, events).value;
      && job in s.ledger.jobs && IsClosed(s.ledger.jobs[job]) && AllPaid(s, job, paid) && BooksAt(s.ledger, job, bought)
    ensures |ids| == |paid| && NoRepeats(ids)
    ensures forall i :: 0 <= i < |ids| ==> DocumentOf(Run(w, events).value.ledger, paid[i]) == Some(ids[i])
    ensures forall d :: d in ids ==> HasDocument(bought, d)
    ensures forall d :: d in bought ==> d.id in ids
  {
    var s := Run(w, events).value;
    var l := s.ledger;
    hide Run, DocumentOf, PaidOnChain, BooksAt, IsClosed;
    forall i | 0 <= i < |paid|
      ensures DocumentOf(l, paid[i]).Some? && HasDocument(bought, DocumentOf(l, paid[i]).value)
    {
      assert paid[i] in paid;
      PaidIsBought(w, events, job, paid, bought, paid[i]);
    }
    ids := seq(|paid|, i requires 0 <= i < |paid| => DocumentOf(l, paid[i]).value);
    forall i, k | 0 <= i < k < |ids| ensures ids[i] != ids[k] {
      assert paid[i] in paid && paid[k] in paid;
      if ids[i] == ids[k] {
        NoDocumentIsPaidTwice(w, events, paid[i], paid[k]);
      }
    }
    forall d | d in bought ensures d.id in ids {
      var a := BoughtIsPaid(w, events, job, paid, bought, d);
      var i :| 0 <= i < |paid| && paid[i] == a;
      assert ids[i] == d.id;
    }
  }

  lemma PaidIsBought(w: World, events: seq<Event>, job: Id, paid: seq<Id>, bought: seq<Document>, a: Id)
    requires ValidWorld(w) && Run(w, events).Some? && a in paid
    requires var s := Run(w, events).value;
      && job in s.ledger.jobs && IsClosed(s.ledger.jobs[job]) && AllPaid(s, job, paid) && BooksAt(s.ledger, job, bought)
    ensures var d := DocumentOf(Run(w, events).value.ledger, a); d.Some? && HasDocument(bought, d.value)
  {
    hide Run, MoneySound, Succeeded, BooksAt, AttemptSound, IsClosed;
    var s := Run(w, events).value;
    RunMoney(w, events);
    OfAttempt(s.ledger, s.accepted, a);
    HasQuote(s.ledger, s.accepted, a);
    ClosedHoldsNothing(s.ledger.jobs[job]);
    ClosedJobOwesNothing(w, events, job, a);
    assert Settles(s.ledger, a, job, DocumentOf(s.ledger, a).value);
    SettledInBooks(s.ledger, job, bought, a, DocumentOf(s.ledger, a).value);
  }

  lemma ClosedHoldsNothing(j: Job)
    requires IsClosed(j)
    ensures !HoldsPayment(j.status)
  {
  }

  lemma SettledInBooks(l: Ledger, job: Id, bought: seq<Document>, attempt: Id, document: Id)
    requires job in l.jobs && BooksAt(l, job, bought) && Settles(l, attempt, job, document)
    ensures HasDocument(bought, document)
  {
  }

  lemma BoughtIsPaid(w: World, events: seq<Event>, job: Id, paid: seq<Id>, bought: seq<Document>, d: Document)
    returns (attempt: Id)
    requires ValidWorld(w) && Run(w, events).Some? && d in bought
    requires var s := Run(w, events).value;
      job in s.ledger.jobs && AllPaid(s, job, paid) && BooksAt(s.ledger, job, bought)
    ensures attempt in paid && DocumentOf(Run(w, events).value.ledger, attempt) == Some(d.id)
  {
    hide Run, Succeeded;
    var s := Run(w, events).value;
    assert BoughtBy(s.ledger, job, d.id);
    attempt :| Settles(s.ledger, attempt, job, d.id);
    SettledIsPaid(w, events, attempt);
  }

  lemma SettledIsPaid(w: World, events: seq<Event>, attempt: Id)
    requires ValidWorld(w) && Run(w, events).Some?
    requires var l := Run(w, events).value.ledger; attempt in l.attempts && l.attempts[attempt].status == Settled
    ensures PaidOnChain(Run(w, events).value, attempt)
  {
    hide Run;
    RunKeeps(w, events);
    var s := Run(w, events).value;
    RowShape(s.ledger, attempt);
    assert Grounded(w, s.chain, s.truthView, s.ledger.attempts[attempt]);
  }

  lemma SameRows(documents: seq<Document>, bought: seq<Document>, rows: seq<Document>, ids: seq<Id>)
    requires ValidBundle(documents) && NoRepeats(bought) && (forall d :: d in bought ==> d in documents)
    requires |rows| == |ids| && NoRepeats(ids)
    requires forall i :: 0 <= i < |rows| ==> rows[i] in documents && rows[i].id == ids[i]
    requires forall d :: d in ids ==> HasDocument(bought, d)
    requires forall d :: d in bought ==> d.id in ids
    ensures SumOf(rows, PriceOf) == SumOf(bought, PriceOf)
  {
    assert NoRepeats(rows);
    forall r | r in rows ensures r in bought {
      var i :| 0 <= i < |rows| && rows[i] == r;
      assert ids[i] in ids;
      var k :| 0 <= k < |bought| && bought[k].id == r.id;
      assert bought[k] in documents;
      SameId(documents, bought[k], r);
    }
    forall b | b in bought ensures b in rows {
      var i :| 0 <= i < |ids| && ids[i] == b.id;
      assert rows[i] in rows;
      SameId(documents, rows[i], b);
    }
    SumOfPart(rows, bought, PriceOf);
    SumOfPart(bought, rows, PriceOf);
  }

  lemma SameId(documents: seq<Document>, d: Document, e: Document)
    requires ValidBundle(documents) && d in documents && e in documents && d.id == e.id
    ensures d == e
  {
  }

  /** In every run, a completed job got all its documents, each paid on chain by an attempt of its own. */
  lemma CompletedIsDelivered(w: World, events: seq<Event>, job: Id, document: Document) returns (attempt: Id)
    requires ValidWorld(w) && Run(w, events).Some?
    requires var l := Run(w, events).value.ledger;
      job in l.jobs && l.jobs[job].status == Completed && document in l.jobs[job].documents
    ensures var s := Run(w, events).value;
      PaidForJob(s, job, attempt) && DocumentOf(s.ledger, attempt) == Some(document.id)
  {
    hide Run;
    var s := Run(w, events).value;
    RunMoney(w, events);
    OfJob(s.ledger, s.accepted, job);
    hide MoneySound, Succeeded;
    var bought: seq<Document> :| BooksAt(s.ledger, job, bought);
    assert BoughtBy(s.ledger, job, document.id);
    attempt :| Settles(s.ledger, attempt, job, document.id);
    SettledIsPaid(w, events, attempt);
  }

  // ---- amounts and prices ----

  /** How the amount of a planned quote compares with the bundle's price of its document. */
  predicate Compares(l: Ledger, documents: seq<Document>, quote: Id, compare: (nat, nat) -> bool)
    requires quote in l.quotes
  {
    compare(l.quotes[quote].amount, PriceIn(documents, l.quotes[quote].document))
  }

  /** What a worker can check when it accepts a plan, once for the life of the job. */
  ghost predicate PlanCompares(s: State, job: Id, compare: (nat, nat) -> bool) {
    job in s.ledger.jobs && job in s.accepted ==>
      forall q :: q in s.accepted[job] ==>
        q in s.ledger.quotes && Compares(s.ledger, s.ledger.jobs[job].documents, q, compare)
  }

  /** Whatever a job paid, it paid at a planned amount. */
  lemma PaidCompares(w: World, events: seq<Event>, job: Id, attempt: Id, compare: (nat, nat) -> bool)
    requires ValidWorld(w) && Run(w, events).Some? && job in Run(w, events).value.ledger.jobs
    requires PaidForJob(Run(w, events).value, job, attempt) && PlanCompares(Run(w, events).value, job, compare)
    ensures var l := Run(w, events).value.ledger;
      compare(AmountPaid(l)(attempt), PricePaid(l, l.jobs[job].documents)(attempt))
  {
    hide Run, Succeeded;
    var s := Run(w, events).value;
    RunMoney(w, events);
    OfAttempt(s.ledger, s.accepted, attempt);
    hide MoneySound;
  }

  /** A plan at the bundle's own prices: payments and refund make up the budget. */
  lemma PlanAtPricesBalances(w: World, events: seq<Event>, job: Id, paid: seq<Id>)
    requires ValidWorld(w) && Run(w, events).Some?
    requires var s := Run(w, events).value;
      && job in s.ledger.jobs && IsClosed(s.ledger.jobs[job]) && AllPaid(s, job, paid)
      && PlanCompares(s, job, (x: nat, y: nat) => x == y)
    ensures var l := Run(w, events).value.ledger;
      SumOf(paid, AmountPaid(l)) + l.jobs[job].refund == Budget(l.jobs[job])
  {
    var s := Run(w, events).value;
    var prices := PricePaid(s.ledger, s.ledger.jobs[job].documents);
    BooksBalance(w, events, job, paid);
    hide Run, IsClosed, PricePaid, AmountPaid, PlanCompares;
    forall i | 0 <= i < |paid| ensures AmountPaid(s.ledger)(paid[i]) == prices(paid[i]) {
      assert paid[i] in paid;
      PaidCompares(w, events, job, paid[i], (x: nat, y: nat) => x == y);
    }
    SumOfMapped(paid, paid, AmountPaid(s.ledger), prices);
  }

  /**
   * A plan at most at the bundle's prices: payments and refund stay within the
   * budget, and make it up exactly when nothing bought was cheaper.
   */
  lemma PlanBelowPrices(w: World, events: seq<Event>, job: Id, paid: seq<Id>)
    requires ValidWorld(w) && Run(w, events).Some?
    requires var s := Run(w, events).value;
      && job in s.ledger.jobs && IsClosed(s.ledger.jobs[job]) && AllPaid(s, job, paid)
      && PlanCompares(s, job, (x: nat, y: nat) => x <= y)
    ensures var l := Run(w, events).value.ledger;
      var j, total := l.jobs[job], SumOf(paid, AmountPaid(l)) + l.jobs[job].refund;
      && total <= Budget(j)
      && (total == Budget(j) <==> forall a :: a in paid ==> AmountPaid(l)(a) == PricePaid(l, j.documents)(a))
  {
    var s := Run(w, events).value;
    var prices := PricePaid(s.ledger, s.ledger.jobs[job].documents);
    BooksBalance(w, events, job, paid);
    hide Run, IsClosed, PricePaid, AmountPaid, PlanCompares;
    forall a | a in paid ensures AmountPaid(s.ledger)(a) <= prices(a) {
      PaidCompares(w, events, job, a, (x: nat, y: nat) => x <= y);
    }
    SumsCompare(paid, AmountPaid(s.ledger), prices);
  }

  /** A plan at least at the bundle's prices: the same, from above. */
  lemma PlanAbovePrices(w: World, events: seq<Event>, job: Id, paid: seq<Id>)
    requires ValidWorld(w) && Run(w, events).Some?
    requires var s := Run(w, events).value;
      && job in s.ledger.jobs && IsClosed(s.ledger.jobs[job]) && AllPaid(s, job, paid)
      && PlanCompares(s, job, (x: nat, y: nat) => x >= y)
    ensures var l := Run(w, events).value.ledger;
      var j, total := l.jobs[job], SumOf(paid, AmountPaid(l)) + l.jobs[job].refund;
      && total >= Budget(j)
      && (total == Budget(j) <==> forall a :: a in paid ==> AmountPaid(l)(a) == PricePaid(l, j.documents)(a))
  {
    var s := Run(w, events).value;
    var prices := PricePaid(s.ledger, s.ledger.jobs[job].documents);
    BooksBalance(w, events, job, paid);
    hide Run, IsClosed, PricePaid, AmountPaid, PlanCompares;
    forall a | a in paid ensures AmountPaid(s.ledger)(a) >= prices(a) {
      PaidCompares(w, events, job, a, (x: nat, y: nat) => x >= y);
    }
    SumsCompare(paid, prices, AmountPaid(s.ledger));
  }

  /** Summands that never exceed others sum to no more, and to as much only when all are equal. */
  lemma {:induction false} SumsCompare(ids: seq<Id>, f: Id -> nat, g: Id -> nat)
    requires forall a :: a in ids ==> f(a) <= g(a)
    ensures SumOf(ids, f) <= SumOf(ids, g)
    ensures SumOf(ids, f) == SumOf(ids, g) <==> forall a :: a in ids ==> f(a) == g(a)
  {
    if |ids| > 0 {
      var init, last := ids[..|ids| - 1], ids[|ids| - 1];
      assert ids == init + [last];
      assert last in ids;
      SumsCompare(init, f, g);
    }
  }
}
