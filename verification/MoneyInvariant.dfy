/**
 * What every ledger operation keeps about money: one bound quote per purchase,
 * one owner per document, plans within their budget, balanced books of closed jobs.
 */
module MoneyInvariant {
  import opened Wrappers
  import opened Sorting
  import opened Sums
  import opened Reconciler
  import opened Ledger
  import opened Protocol
  import opened ProtocolSafety

  type Plans = map<Id, seq<Id>>

  // ---- what every run keeps ----

  /** One bound quote per purchase; whatever was delivered was bound. */
  ghost predicate BoundOnce(l: Ledger) {
    && (forall q, r | q in l.quotes && r in l.quotes && l.quotes[q].document == l.quotes[r].document ::
          l.quotes[q].bound && l.quotes[r].bound ==> q == r)
    && (forall q :: q in l.quotes && l.quotes[q].status == Delivered ==> l.quotes[q].bound)
  }

  /** A document is listed under a quote of its own; an open job has given nothing back. */
  ghost predicate JobSound(j: Job, l: Ledger) {
    && ValidBundle(j.documents)
    && (forall d :: d in j.listed ==>
          HasDocument(j.documents, d) && j.listed[d] in l.quotes && l.quotes[j.listed[d]].document == d)
    && (!IsClosed(j) || j.status == Completed ==> j.refund == 0)
  }

  /** Unless fully refunded, bundles own different documents, and only they pay for them. */
  ghost predicate Exclusive(l: Ledger) {
    && (forall j, k, d | j in l.jobs && k in l.jobs
            && HasDocument(l.jobs[j].documents, d) && HasDocument(l.jobs[k].documents, d) ::
          l.jobs[j].status != BalanceRefunded && l.jobs[k].status != BalanceRefunded ==> j == k)
    && (forall a, j | a in l.attempts && j in l.jobs
            && l.jobs[j].status != BalanceRefunded && BuysFor(l, a, l.jobs[j]) ::
          l.attempts[a].job == Some(j))
  }

  predicate BuysFor(l: Ledger, attempt: Id, j: Job)
    requires attempt in l.attempts
  {
    var q := l.attempts[attempt].quote;
    q in l.quotes && HasDocument(j.documents, l.quotes[q].document)
  }

  /** A begun payment is for a listed document of its job, under a quote of the accepted plan. */
  ghost predicate AttemptSound(l: Ledger, plans: Plans, attempt: Id)
    requires attempt in l.attempts
  {
    var a := l.attempts[attempt];
    && a.quote in l.quotes && l.quotes[a.quote].bound
    && (a.job.Some? ==>
          && a.job.value in l.jobs && a.job.value in plans && a.quote in plans[a.job.value]
          && BuysFor(l, attempt, l.jobs[a.job.value])
          && (Live(a) || a.status == Settled ==> ListedUnder(l.jobs[a.job.value], l, a.quote)))
  }

  /** The accepted plan is within budget, and stays the whole of what is left to buy. */
  ghost predicate PlanSound(l: Ledger, job: Id, quotes: seq<Id>) {
    && job in l.jobs && NoRepeats(quotes)
    && (forall q :: q in quotes ==> q in l.quotes)
    && SumOf(quotes, AmountIn(l)) <= Budget(l.jobs[job])
    && (forall d :: HasDocument(l.jobs[job].documents, d) ==> Bought(l, quotes, d))
  }

  /** The purchase has its bound quote, which the plan names unless it was delivered before. */
  ghost predicate Bought(l: Ledger, quotes: seq<Id>, document: Id) {
    exists q :: q in l.quotes && l.quotes[q].document == document && l.quotes[q].bound
      && (q in quotes || l.quotes[q].status == Delivered)
  }

  ghost predicate Settles(l: Ledger, attempt: Id, job: Id, document: Id) {
    && attempt in l.attempts && l.attempts[attempt].job == Some(job) && l.attempts[attempt].status == Settled
    && l.attempts[attempt].quote in l.quotes && l.quotes[l.attempts[attempt].quote].document == document
  }

  ghost predicate BoughtBy(l: Ledger, job: Id, document: Id) {
    exists a :: Settles(l, a, job, document)
  }

  /** The closed job's purchases, which together with the refund are its budget. */
  ghost predicate BooksAt(l: Ledger, job: Id, bought: seq<Document>)
    requires job in l.jobs
  {
    var j := l.jobs[job];
    && NoRepeats(bought) && (forall d :: d in bought ==> d in j.documents)
    && SumOf(bought, PriceOf) + j.refund == Budget(j)
    && (forall d :: d in bought ==> BoughtBy(l, job, d.id))
    && (forall a, d :: Settles(l, a, job, d) ==> HasDocument(bought, d))
    && (j.status == Completed ==> forall d :: d in j.documents ==> d in bought)
  }

  ghost predicate Books(l: Ledger, job: Id)
    requires job in l.jobs
  {
    exists bought: seq<Document> :: BooksAt(l, job, bought)
  }

  ghost predicate MoneySound(l: Ledger, plans: Plans) {
    && BoundOnce(l) && Exclusive(l)
    && (forall j :: j in l.jobs ==> JobSound(l.jobs[j], l))
    && (forall a :: a in l.attempts ==> AttemptSound(l, plans, a))
    && (forall j :: j in plans ==> PlanSound(l, j, plans[j]))
    && (forall j :: j in l.jobs && IsClosed(l.jobs[j]) ==> Books(l, j))
  }

  lemma OfAttempt(l: Ledger, plans: Plans, attempt: Id)
    requires MoneySound(l, plans) && attempt in l.attempts
    ensures AttemptSound(l, plans, attempt)
  {
  }

  lemma OfLedger(l: Ledger, plans: Plans)
    requires MoneySound(l, plans)
    ensures BoundOnce(l) && Exclusive(l)
  {
  }

  lemma OfJob(l: Ledger, plans: Plans, job: Id)
    requires MoneySound(l, plans) && job in l.jobs
    ensures JobSound(l.jobs[job], l) && (IsClosed(l.jobs[job]) ==> Books(l, job))
  {
  }

  // ---- steps that buy nothing new ----

  ghost predicate SameQuote(q: Quote, r: Quote) {
    && q.document == r.document && q.amount == r.amount && q.bound == r.bound
    && (q.status == Delivered ==> r.status == Delivered) && (r.status == Delivered ==> r.bound)
  }

  ghost predicate SameJob(j: Job, k: Job) {
    && j.documents == k.documents && j.listed == k.listed && j.refund == k.refund
    && (IsClosed(j) || IsClosed(k) ==> j.status == k.status)
  }

  /** Nothing about purchases changes but deliveries; closed jobs settle nothing more. */
  ghost predicate SameMoney(l: Ledger, m: Ledger) {
    && m.quotes.Keys == l.quotes.Keys && (forall q :: q in l.quotes ==> SameQuote(l.quotes[q], m.quotes[q]))
    && m.jobs.Keys == l.jobs.Keys && (forall j :: j in l.jobs ==> SameJob(l.jobs[j], m.jobs[j]))
    && m.attempts.Keys == l.attempts.Keys
    && (forall a :: a in l.attempts ==> SameAttempt(l, l.attempts[a], m.attempts[a]))
  }

  ghost predicate SameAttempt(l: Ledger, a: Attempt, b: Attempt) {
    && a.job == b.job && a.quote == b.quote && (a.status == Settled ==> b.status == Settled)
    && (Live(b) ==> Live(a))
    && (b.status == Settled && a.status != Settled ==>
          Live(a) && (a.job.Some? && a.job.value in l.jobs ==> !IsClosed(l.jobs[a.job.value])))
  }

  lemma SameAmounts(l: Ledger, m: Ledger, quotes: seq<Id>)
    requires forall q :: q in quotes ==> q in l.quotes && q in m.quotes && l.quotes[q].amount == m.quotes[q].amount
    ensures SumOf(quotes, AmountIn(l)) == SumOf(quotes, AmountIn(m))
  {
    SumOfMapped(quotes, quotes, AmountIn(l), AmountIn(m));
  }

  predicate QuoteStays(q: Quote, r: Quote) {
    && q.document == r.document && q.amount == r.amount && (q.bound ==> r.bound)
    && (q.status == Delivered ==> r.status == Delivered)
  }

  lemma PlansStay(l: Ledger, m: Ledger, job: Id, quotes: seq<Id>)
    requires PlanSound(l, job, quotes) && job in m.jobs && m.jobs[job].documents == l.jobs[job].documents
    requires forall q :: q in l.quotes ==> q in m.quotes && QuoteStays(l.quotes[q], m.quotes[q])
    ensures PlanSound(m, job, quotes)
  {
    SameAmounts(l, m, quotes);
    forall d | HasDocument(m.jobs[job].documents, d) ensures Bought(m, quotes, d) {
      assert Bought(l, quotes, d);
    }
  }

  /** The settlements of a closed job and the documents of its quotes are final. */
  lemma BooksStay(l: Ledger, m: Ledger, job: Id)
    requires job in l.jobs && job in m.jobs && Books(l, job)
    requires m.jobs[job].documents == l.jobs[job].documents && m.jobs[job].refund == l.jobs[job].refund
    requires m.jobs[job].status == l.jobs[job].status
    requires forall a, d :: Settles(l, a, job, d) <==> Settles(m, a, job, d)
    ensures Books(m, job)
  {
    var bought: seq<Document> :| BooksAt(l, job, bought);
    forall d | d in bought ensures BoughtBy(m, job, d.id) {
      assert BoughtBy(l, job, d.id);
      var a :| Settles(l, a, job, d.id);
      assert Settles(m, a, job, d.id);
    }
    assert BooksAt(m, job, bought);
  }

  lemma QuietExclusive(l: Ledger, m: Ledger)
    requires Exclusive(l) && SameMoney(l, m)
    ensures Exclusive(m)
  {
    forall a, j | a in m.attempts && j in m.jobs && m.jobs[j].status != BalanceRefunded && BuysFor(m, a, m.jobs[j])
      ensures m.attempts[a].job == Some(j)
    {
      assert BuysFor(l, a, l.jobs[j]);
    }
  }

  lemma QuietAttempt(l: Ledger, m: Ledger, plans: Plans, a: Id)
    requires a in l.attempts && AttemptSound(l, plans, a) && SameMoney(l, m)
    ensures AttemptSound(m, plans, a)
  {
  }

  lemma QuietJobs(l: Ledger, m: Ledger, job: Id)
    requires job in l.jobs && JobSound(l.jobs[job], l) && SameMoney(l, m)
    ensures JobSound(m.jobs[job], m)
  {
  }

  lemma QuietBooks(l: Ledger, m: Ledger, job: Id)
    requires job in l.jobs && IsClosed(l.jobs[job]) && Books(l, job) && SameMoney(l, m)
    ensures Books(m, job)
  {
    hide BooksAt;
    forall a, d ensures Settles(l, a, job, d) <==> Settles(m, a, job, d) {
    }
    BooksStay(l, m, job);
  }

  lemma QuietKeeps(l: Ledger, m: Ledger, plans: Plans)
    requires MoneySound(l, plans) && SameMoney(l, m)
    ensures MoneySound(m, plans)
  {
    assert BoundOnce(m);
    hide AttemptSound, JobSound, Books, PlanSound, Exclusive, BoundOnce;
    QuietExclusive(l, m);
    forall j | j in m.jobs ensures JobSound(m.jobs[j], m) { QuietJobs(l, m, j); }
    forall a | a in m.attempts ensures AttemptSound(m, plans, a) { QuietAttempt(l, m, plans, a); }
    forall j | j in plans ensures PlanSound(m, j, plans[j]) { QuietPlan(l, m, j, plans[j]); }
    forall j | j in m.jobs && IsClosed(m.jobs[j]) ensures Books(m, j) { QuietBooks(l, m, j); }
  }

  lemma QuietPlan(l: Ledger, m: Ledger, job: Id, quotes: seq<Id>)
    requires PlanSound(l, job, quotes) && SameMoney(l, m)
    ensures PlanSound(m, job, quotes)
  {
    PlansStay(l, m, job, quotes);
  }

  lemma QuietPlanning(l: Ledger, job: Id)
    requires BoundOnce(l) && Plan(l, job).Ok?
    ensures SameMoney(l, Plan(l, job).value)
  {
  }

  /** One job, one attempt and one quote may change at a time. */
  lemma LittleChanged(l: Ledger, m: Ledger, job: Id, attempt: Id, quote: Id)
    requires BoundOnce(l) && m.jobs.Keys == l.jobs.Keys
    requires m.attempts.Keys == l.attempts.Keys && m.quotes.Keys == l.quotes.Keys
    requires forall j :: j in l.jobs && j != job ==> m.jobs[j] == l.jobs[j]
    requires forall a :: a in l.attempts && a != attempt ==> m.attempts[a] == l.attempts[a]
    requires forall q :: q in l.quotes && q != quote ==> m.quotes[q] == l.quotes[q]
    requires job in l.jobs ==> SameJob(l.jobs[job], m.jobs[job])
    requires attempt in l.attempts ==> SameAttempt(l, l.attempts[attempt], m.attempts[attempt])
    requires quote in l.quotes ==> SameQuote(l.quotes[quote], m.quotes[quote])
    ensures SameMoney(l, m)
  {
    forall q | q in l.quotes ensures SameQuote(l.quotes[q], m.quotes[q]) {
      BoundQuote(l, q);
    }
  }

  lemma BoundQuote(l: Ledger, quote: Id)
    requires BoundOnce(l) && quote in l.quotes
    ensures SameQuote(l.quotes[quote], l.quotes[quote])
  {
  }

  lemma QuietHold(l: Ledger, job: Id)
    requires BoundOnce(l) && Hold(l, job).Ok?
    ensures SameMoney(l, Hold(l, job).value)
  {
    hide BoundOnce, SameMoney;
    BoundQuotes(l);
    LittleChanged(l, Hold(l, job).value, job, if l.jobs[job].active.Some? then l.jobs[job].active.value.1 else "", "");
  }

  lemma QuietDeferral(l: Ledger, attempt: Id, absence: bool, now: nat)
    requires BoundOnce(l) && DeferAttempt(l, attempt, absence, now).Ok?
    ensures SameMoney(l, DeferAttempt(l, attempt, absence, now).value)
  {
  }

  lemma QuietRelease(l: Ledger, attempt: Id, expected: AttemptStatus, now: nat)
    requires BoundOnce(l) && ReleaseAttempt(l, attempt, expected, now).Ok?
    ensures SameMoney(l, ReleaseAttempt(l, attempt, expected, now).value)
  {
    hide BoundOnce, SameMoney;
    var a := l.attempts[attempt];
    BoundQuotes(l);
    var job := if a.job.Some? then a.job.value else "";
    LittleChanged(l, ReleaseAttempt(l, attempt, expected, now).value, job, attempt, a.quote);
  }

  lemma BoundQuotes(l: Ledger)
    requires BoundOnce(l)
    ensures forall q :: q in l.quotes ==> SameQuote(l.quotes[q], l.quotes[q])
  {
  }

  lemma QuietSettlement(l: Ledger, attempt: Id, signature: Signature)
    requires BoundOnce(l) && SettleAttempt(l, attempt, signature).Ok?
    requires l.attempts[attempt].quote in l.quotes && l.quotes[l.attempts[attempt].quote].bound
    ensures SameMoney(l, SettleAttempt(l, attempt, signature).value)
  {
    hide BoundOnce, SameMoney;
    var a := l.attempts[attempt];
    BoundQuotes(l);
    var job := if a.job.Some? then a.job.value else "";
    LittleChanged(l, SettleAttempt(l, attempt, signature).value, job, attempt, a.quote);
  }

  lemma QuietResearchPrepare(
    l: Ledger, job: Id, attempt: Id, quote: Id, message: Message, blockhash: Blockhash, now: nat)
    requires BoundOnce(l) && Prepare(l, job, attempt, quote, message, blockhash, now).Ok?
    ensures SameMoney(l, Prepare(l, job, attempt, quote, message, blockhash, now).value)
  {
    hide BoundOnce, SameMoney;
    BoundQuotes(l);
    LittleChanged(l, Prepare(l, job, attempt, quote, message, blockhash, now).value, job, attempt, quote);
  }

  // ---- quotes are minted and bound ----

  lemma QuotesChange(l: Ledger, m: Ledger, plans: Plans)
    requires MoneySound(l, plans) && m.jobs == l.jobs && m.attempts == l.attempts && BoundOnce(m)
    requires forall q :: q in l.quotes ==> q in m.quotes && QuoteStays(l.quotes[q], m.quotes[q])
    ensures MoneySound(m, plans)
  {
    OfLedger(l, plans);
    hide MoneySound, BoundOnce, PlanSound, Books, JobSound, AttemptSound, Exclusive, QuoteStays;
    forall a | a in m.attempts ensures AttemptSound(m, plans, a) {
      OfAttempt(l, plans, a);
      QuotesKeepAttempt(l, m, plans, a);
    }
    forall a | a in l.attempts ensures l.attempts[a].quote in l.quotes {
      OfAttempt(l, plans, a);
      HasQuote(l, plans, a);
    }
    QuotesKeepExclusive(l, m);
    forall j | j in m.jobs ensures JobSound(m.jobs[j], m) && (IsClosed(m.jobs[j]) ==> Books(m, j)) {
      OfJob(l, plans, j);
      QuotesKeepJob(l, m, j);
    }
    forall j | j in plans ensures PlanSound(m, j, plans[j]) {
      OfPlan(l, plans, j);
      PlanOfJob(l, j, plans[j]);
      QuotesKeepPlan(l, m, j, plans[j]);
    }
    Assembled(m, plans);
  }

  lemma OfPlan(l: Ledger, plans: Plans, job: Id)
    requires MoneySound(l, plans) && job in plans
    ensures PlanSound(l, job, plans[job])
  {
  }

  lemma PlanOfJob(l: Ledger, job: Id, quotes: seq<Id>)
    requires PlanSound(l, job, quotes)
    ensures job in l.jobs
  {
  }

  lemma HasQuote(l: Ledger, plans: Plans, attempt: Id)
    requires attempt in l.attempts && AttemptSound(l, plans, attempt)
    ensures l.attempts[attempt].quote in l.quotes
  {
  }

  lemma Assembled(m: Ledger, plans: Plans)
    requires BoundOnce(m) && Exclusive(m) && (forall a :: a in m.attempts ==> AttemptSound(m, plans, a))
    requires forall j :: j in m.jobs ==> JobSound(m.jobs[j], m) && (IsClosed(m.jobs[j]) ==> Books(m, j))
    requires forall j :: j in plans ==> PlanSound(m, j, plans[j])
    ensures MoneySound(m, plans)
  {
  }

  lemma QuotesKeepAttempt(l: Ledger, m: Ledger, plans: Plans, a: Id)
    requires m.jobs == l.jobs && m.attempts == l.attempts && a in l.attempts && AttemptSound(l, plans, a)
    requires forall q :: q in l.quotes ==> q in m.quotes && QuoteStays(l.quotes[q], m.quotes[q])
    ensures AttemptSound(m, plans, a)
  {
  }

  lemma QuotesKeepExclusive(l: Ledger, m: Ledger)
    requires m.jobs == l.jobs && m.attempts == l.attempts && Exclusive(l)
    requires forall a :: a in l.attempts ==> l.attempts[a].quote in l.quotes
    requires forall q :: q in l.quotes ==> q in m.quotes && QuoteStays(l.quotes[q], m.quotes[q])
    ensures Exclusive(m)
  {
    forall a, j | a in m.attempts && j in m.jobs && m.jobs[j].status != BalanceRefunded && BuysFor(m, a, m.jobs[j])
      ensures m.attempts[a].job == Some(j)
    {
      assert BuysFor(l, a, l.jobs[j]);
    }
  }

  lemma QuotesKeepJob(l: Ledger, m: Ledger, job: Id)
    requires m.jobs == l.jobs && m.attempts == l.attempts && job in l.jobs
    requires forall a :: a in l.attempts ==> l.attempts[a].quote in l.quotes
    requires forall q :: q in l.quotes ==> q in m.quotes && QuoteStays(l.quotes[q], m.quotes[q])
    requires JobSound(l.jobs[job], l) && (IsClosed(l.jobs[job]) ==> Books(l, job))
    ensures JobSound(m.jobs[job], m) && (IsClosed(m.jobs[job]) ==> Books(m, job))
  {
    hide BooksAt;
    if IsClosed(m.jobs[job]) {
      forall a, d ensures Settles(l, a, job, d) <==> Settles(m, a, job, d) {
      }
      BooksStay(l, m, job);
    }
  }

  lemma QuotesKeepPlan(l: Ledger, m: Ledger, job: Id, quotes: seq<Id>)
    requires PlanSound(l, job, quotes) && job in m.jobs && m.jobs[job].documents == l.jobs[job].documents
    requires forall q :: q in l.quotes ==> q in m.quotes && QuoteStays(l.quotes[q], m.quotes[q])
    ensures PlanSound(m, job, quotes)
  {
    PlansStay(l, m, job, quotes);
  }

  lemma MintMoney(l: Ledger, plans: Plans, quote: Id, document: Id, amount: nat, expiresAt: nat)
    requires MoneySound(l, plans) && NewQuote(l, quote, document, amount, expiresAt).Ok?
    ensures MoneySound(NewQuote(l, quote, document, amount, expiresAt).value, plans)
  {
    var m := NewQuote(l, quote, document, amount, expiresAt).value;
    assert BoundOnce(m);
    hide BoundOnce;
    QuotesChange(l, m, plans);
  }

  lemma BoundStaysUnique(l: Ledger, quote: Id)
    requires BoundOnce(l) && BindQuote(l, quote).Ok?
    ensures BoundOnce(BindQuote(l, quote).value)
  {
  }

  lemma BindChanges(l: Ledger, quote: Id)
    requires BindQuote(l, quote).Ok?
    ensures var m := BindQuote(l, quote).value;
      && m.jobs == l.jobs && m.attempts == l.attempts
      && forall q :: q in l.quotes ==> q in m.quotes && QuoteStays(l.quotes[q], m.quotes[q])
  {
  }

  lemma BindMoney(l: Ledger, plans: Plans, quote: Id)
    requires MoneySound(l, plans) && BindQuote(l, quote).Ok?
    ensures MoneySound(BindQuote(l, quote).value, plans)
  {
    var m := BindQuote(l, quote).value;
    OfLedger(l, plans);
    BoundStaysUnique(l, quote);
    BindChanges(l, quote);
    hide *;
    QuotesChange(l, m, plans);
  }

  // ---- a quote is listed ----

  /** What is being paid or was delivered stays listed. */
  lemma ListMoney(l: Ledger, plans: Plans, job: Id, quote: Id)
    requires Consistent(l) && MoneySound(l, plans) && ListQuote(l, job, quote).Ok?
    ensures MoneySound(ListQuote(l, job, quote).value, plans)
  {
    var m := ListQuote(l, job, quote).value;
    hide MoneySound, AttemptSound, JobSound, Consistent;
    if m != l {
      forall a | a in m.attempts ensures AttemptSound(m, plans, a) {
        OfAttempt(l, plans, a);
        StaysListed(l, plans, job, quote, a);
      }
      forall j | j in m.jobs ensures JobSound(m.jobs[j], m) {
        OfJob(l, plans, j);
        RelistedJob(l, job, quote, j);
      }
      RelistedMoney(l, m, plans);
    }
  }

  lemma RelistedJob(l: Ledger, job: Id, quote: Id, j: Id)
    requires ListQuote(l, job, quote).Ok? && j in l.jobs && JobSound(l.jobs[j], l)
    ensures var m := ListQuote(l, job, quote).value; JobSound(m.jobs[j], m)
  {
  }

  lemma StaysListed(l: Ledger, plans: Plans, job: Id, quote: Id, a: Id)
    requires Consistent(l) && ListQuote(l, job, quote).Ok? && a in l.attempts && AttemptSound(l, plans, a)
    ensures AttemptSound(ListQuote(l, job, quote).value, plans, a)
  {
    assert Live(l.attempts[a]) ==> LiveOwnsEverything(l, a);
    assert l.attempts[a].status == Settled ==> SettledIsDelivered(l, a);
    hide Consistent;
  }

  lemma RelistedMoney(l: Ledger, m: Ledger, plans: Plans)
    requires MoneySound(l, plans) && m.quotes == l.quotes && m.attempts == l.attempts && m.jobs.Keys == l.jobs.Keys
    requires forall j :: j in l.jobs ==> m.jobs[j] == l.jobs[j].(listed := m.jobs[j].listed)
    requires forall a :: a in m.attempts ==> AttemptSound(m, plans, a)
    requires forall j :: j in m.jobs ==> JobSound(m.jobs[j], m)
    ensures MoneySound(m, plans)
  {
    RelistedExclusive(l, m);
    hide AttemptSound, JobSound, Books, Exclusive;
    forall j | j in m.jobs && IsClosed(m.jobs[j]) ensures Books(m, j) {
      BooksStay(l, m, j);
    }
    Assemble(l, m, plans);
  }

  lemma RelistedExclusive(l: Ledger, m: Ledger)
    requires Exclusive(l) && m.quotes == l.quotes && m.attempts == l.attempts && m.jobs.Keys == l.jobs.Keys
    requires forall j :: j in l.jobs ==> m.jobs[j] == l.jobs[j].(listed := m.jobs[j].listed)
    ensures Exclusive(m)
  {
    forall a, j | a in m.attempts && j in m.jobs && m.jobs[j].status != BalanceRefunded && BuysFor(m, a, m.jobs[j])
      ensures m.attempts[a].job == Some(j)
    {
      assert BuysFor(l, a, l.jobs[j]);
    }
  }

  /** Where no quote changes, jobs, attempts and books are all there is to show. */
  lemma Assemble(l: Ledger, m: Ledger, plans: Plans)
    requires MoneySound(l, plans) && m.quotes == l.quotes
    requires forall j :: j in l.jobs ==> j in m.jobs && m.jobs[j].documents == l.jobs[j].documents
    requires Exclusive(m) && (forall a :: a in m.attempts ==> AttemptSound(m, plans, a))
    requires forall j :: j in m.jobs ==> JobSound(m.jobs[j], m) && (IsClosed(m.jobs[j]) ==> Books(m, j))
    ensures MoneySound(m, plans)
  {
    OfLedger(l, plans);
    SameQuotesBound(l, m);
    hide *;
    forall j | j in plans ensures PlanSound(m, j, plans[j]) {
      OfPlan(l, plans, j);
      PlanOfJob(l, j, plans[j]);
      SamePlan(l, m, j, plans[j]);
    }
    Assembled(m, plans);
  }

  lemma SameQuotesBound(l: Ledger, m: Ledger)
    requires BoundOnce(l) && m.quotes == l.quotes
    ensures BoundOnce(m)
  {
  }

  lemma SamePlan(l: Ledger, m: Ledger, job: Id, quotes: seq<Id>)
    requires PlanSound(l, job, quotes) && m.quotes == l.quotes
    requires job in m.jobs && m.jobs[job].documents == l.jobs[job].documents
    ensures PlanSound(m, job, quotes)
  {
    QuotesKeepPlan(l, m, job, quotes);
  }

  // ---- an attempt is added ----

  /** What a new, unsettled attempt leaves alone. */
  ghost predicate Adds(l: Ledger, m: Ledger, attempt: Id) {
    && m.quotes == l.quotes && m.jobs.Keys == l.jobs.Keys && (forall j :: j in l.jobs ==> SameJob(l.jobs[j], m.jobs[j]))
    && attempt !in l.attempts && attempt in m.attempts && m.attempts == l.attempts[attempt := m.attempts[attempt]]
    && m.attempts[attempt].status != Settled
  }

  lemma AddMoney(l: Ledger, m: Ledger, plans: Plans, attempt: Id)
    requires MoneySound(l, plans) && Adds(l, m, attempt) && AttemptSound(m, plans, attempt)
    requires forall j :: j in l.jobs && l.jobs[j].status != BalanceRefunded && BuysFor(m, attempt, l.jobs[j]) ==>
      m.attempts[attempt].job == Some(j)
    ensures MoneySound(m, plans)
  {
    AddExclusive(l, m, attempt);
    hide AttemptSound, JobSound, Books, Exclusive, Live;
    forall a | a in m.attempts ensures AttemptSound(m, plans, a) {
      if a != attempt {
        OfAttempt(l, plans, a);
        AddLeaves(l, m, plans, attempt, a);
      }
    }
    forall j | j in m.jobs ensures JobSound(m.jobs[j], m) && (IsClosed(m.jobs[j]) ==> Books(m, j)) {
      OfJob(l, plans, j);
      AddKeepsJob(l, m, attempt, j);
    }
    Assemble(l, m, plans);
  }

  lemma AddExclusive(l: Ledger, m: Ledger, attempt: Id)
    requires Exclusive(l) && Adds(l, m, attempt)
    requires forall j :: j in l.jobs && l.jobs[j].status != BalanceRefunded && BuysFor(m, attempt, l.jobs[j]) ==>
      m.attempts[attempt].job == Some(j)
    ensures Exclusive(m)
  {
    forall a, j | a in m.attempts && j in m.jobs && m.jobs[j].status != BalanceRefunded && BuysFor(m, a, m.jobs[j])
      ensures m.attempts[a].job == Some(j)
    {
      assert BuysFor(m, a, l.jobs[j]);
      assert a != attempt ==> BuysFor(l, a, l.jobs[j]);
    }
  }

  lemma AddLeaves(l: Ledger, m: Ledger, plans: Plans, attempt: Id, a: Id)
    requires Adds(l, m, attempt) && a in l.attempts && AttemptSound(l, plans, a)
    ensures AttemptSound(m, plans, a)
  {
  }

  lemma AddKeepsJob(l: Ledger, m: Ledger, attempt: Id, job: Id)
    requires Adds(l, m, attempt) && job in l.jobs && JobSound(l.jobs[job], l)
    requires IsClosed(l.jobs[job]) ==> Books(l, job)
    ensures JobSound(m.jobs[job], m) && (IsClosed(m.jobs[job]) ==> Books(m, job))
  {
    hide BooksAt;
    if IsClosed(m.jobs[job]) {
      BooksStay(l, m, job);
    }
  }

  /** The quote about to be paid is the bound one of its purchase, so the accepted plan names it. */
  lemma PayableIsPlanned(l: Ledger, plans: Plans, job: Id, quote: Id, now: nat)
    requires MoneySound(l, plans) && job in l.jobs && job in plans
    requires ListedUnder(l.jobs[job], l, quote) && Payable(l, quote, now)
    ensures quote in plans[job] && HasDocument(l.jobs[job].documents, l.quotes[quote].document)
  {
    assert JobSound(l.jobs[job], l);
    assert PlanSound(l, job, plans[job]);
    assert Bought(l, plans[job], l.quotes[quote].document);
  }

  /** Another bundle that owned the purchase would exclude this one. */
  lemma OneOwner(l: Ledger, plans: Plans, job: Id, document: Id, other: Id)
    requires MoneySound(l, plans) && job in l.jobs && other in l.jobs
    requires HasDocument(l.jobs[job].documents, document) && HasDocument(l.jobs[other].documents, document)
    requires l.jobs[job].status != BalanceRefunded && l.jobs[other].status != BalanceRefunded
    ensures job == other
  {
  }

  lemma BeginAdds(l: Ledger, job: Id, quote: Id, attempt: Id, now: nat)
    requires Begin(l, job, quote, attempt, now).Ok? && Begin(l, job, quote, attempt, now).value != l
    ensures var m := Begin(l, job, quote, attempt, now).value;
      && job in l.jobs && l.jobs[job].status == Processing
      && ListedUnder(l.jobs[job], l, quote) && Payable(l, quote, now)
      && Adds(l, m, attempt) && m.attempts[attempt] == Attempt(Some(job), quote, Claimed, None, "", now, None, None)
  {
  }

  lemma BegunIsSound(l: Ledger, m: Ledger, plans: Plans, job: Id, attempt: Id)
    requires Adds(l, m, attempt) && m.attempts[attempt].job == Some(job) && job in l.jobs && job in plans
    requires var q := m.attempts[attempt].quote;
      && ListedUnder(l.jobs[job], l, q) && l.quotes[q].bound && q in plans[job]
      && HasDocument(l.jobs[job].documents, l.quotes[q].document)
    ensures AttemptSound(m, plans, attempt)
  {
  }

  lemma BeginMoney(l: Ledger, plans: Plans, job: Id, quote: Id, attempt: Id, now: nat)
    requires MoneySound(l, plans) && job in plans && Begin(l, job, quote, attempt, now).Ok?
    ensures MoneySound(Begin(l, job, quote, attempt, now).value, plans)
  {
    hide MoneySound, AttemptSound, Begin, Adds;
    var m := Begin(l, job, quote, attempt, now).value;
    if m != l {
      BeginAdds(l, job, quote, attempt, now);
      PayableIsPlanned(l, plans, job, quote, now);
      BegunIsSound(l, m, plans, job, attempt);
      assert m.quotes == l.quotes by { AddsNoQuote(l, m, attempt); }
      forall j | j in l.jobs && l.jobs[j].status != BalanceRefunded && BuysFor(m, attempt, l.jobs[j])
        ensures m.attempts[attempt].job == Some(j)
      {
        OneOwner(l, plans, job, l.quotes[quote].document, j);
      }
      AddMoney(l, m, plans, attempt);
    }
  }

  lemma AddsNoQuote(l: Ledger, m: Ledger, attempt: Id)
    requires Adds(l, m, attempt)
    ensures m.quotes == l.quotes
  {
  }

  lemma DirectMoney(l: Ledger, plans: Plans, attempt: Id, quote: Id, message: Message, blockhash: Blockhash, now: nat)
    requires MoneySound(l, plans) && PrepareDirect(l, attempt, quote, message, blockhash, now).Ok?
    ensures MoneySound(PrepareDirect(l, attempt, quote, message, blockhash, now).value, plans)
  {
    var m := PrepareDirect(l, attempt, quote, message, blockhash, now).value;
    if m != l {
      assert AttemptSound(m, plans, attempt);
      assert !Reserved(l, l.quotes[quote].document);
      hide MoneySound, AttemptSound;
      AddMoney(l, m, plans, attempt);
    }
  }

  // ---- bundles open and close ----

  lemma BundleMoney(l: Ledger, plans: Plans, job: Id, documents: seq<Document>, now: nat)
    requires MoneySound(l, plans) && NewBundle(l, job, documents, now).Ok?
    ensures MoneySound(NewBundle(l, job, documents, now).value, plans)
  {
    var m := NewBundle(l, job, documents, now).value;
    FreshPurchases(l, plans, documents, now);
    NewBundleIsExclusive(l, m, job, documents);
    hide AttemptSound, JobSound, Books, Exclusive, NoneBuys, Reserved, PurchaseTaken;
    forall a | a in m.attempts ensures AttemptSound(m, plans, a) {
      NewBundleLeaves(l, m, plans, job, a);
    }
    forall j | j in m.jobs ensures JobSound(m.jobs[j], m) && (IsClosed(m.jobs[j]) ==> Books(m, j)) {
      if j == job {
        NewBundleSound(m, job, documents);
      } else {
        OfJob(l, plans, j);
        OtherJobStays(l, m, j);
      }
    }
    Assemble(l, m, plans);
  }

  lemma NewBundleLeaves(l: Ledger, m: Ledger, plans: Plans, job: Id, a: Id)
    requires a in l.attempts && AttemptSound(l, plans, a)
    requires job !in l.jobs && job in m.jobs && m == l.(jobs := l.jobs[job := m.jobs[job]])
    ensures AttemptSound(m, plans, a)
  {
  }

  lemma NewBundleSound(m: Ledger, job: Id, documents: seq<Document>)
    requires job in m.jobs && m.jobs[job] == Job(Funded, None, documents, map[], 0) && ValidBundle(documents)
    ensures JobSound(m.jobs[job], m) && !IsClosed(m.jobs[job])
  {
  }

  /** The soundness of a job and its books depend on itself, the quotes and the attempts. */
  lemma OtherJobStays(l: Ledger, m: Ledger, job: Id)
    requires job in l.jobs && job in m.jobs && m.jobs[job] == l.jobs[job]
    requires m.quotes == l.quotes && m.attempts == l.attempts
    requires JobSound(l.jobs[job], l) && (IsClosed(l.jobs[job]) ==> Books(l, job))
    ensures JobSound(m.jobs[job], m) && (IsClosed(m.jobs[job]) ==> Books(m, job))
  {
    hide BooksAt;
    if IsClosed(m.jobs[job]) {
      BooksStay(l, m, job);
    }
  }

  ghost predicate NoneBuys(l: Ledger, documents: seq<Document>) {
    forall a :: a in l.attempts ==>
      l.attempts[a].quote in l.quotes && !HasDocument(documents, l.quotes[l.attempts[a].quote].document)
  }

  /** No open bundle has these documents, and nobody has begun to pay for them. */
  lemma FreshPurchases(l: Ledger, plans: Plans, documents: seq<Document>, now: nat)
    requires MoneySound(l, plans)
    requires forall k :: 0 <= k < |documents| ==> !PurchaseTaken(l, documents[k].id, now)
    ensures forall d :: HasDocument(documents, d) ==> !Reserved(l, d)
    ensures NoneBuys(l, documents)
  {
    forall a | a in l.attempts
      ensures l.attempts[a].quote in l.quotes && !HasDocument(documents, l.quotes[l.attempts[a].quote].document)
    {
      assert AttemptSound(l, plans, a);
      assert QuoteActive(l, l.attempts[a].quote, now);
    }
  }

  lemma NewBundleIsExclusive(l: Ledger, m: Ledger, job: Id, documents: seq<Document>)
    requires Exclusive(l) && job !in l.jobs && m == l.(jobs := l.jobs[job := Job(Funded, None, documents, map[], 0)])
    requires forall d :: HasDocument(documents, d) ==> !Reserved(l, d)
    requires NoneBuys(l, documents)
    ensures Exclusive(m)
  {
    forall a, j | a in m.attempts && j in m.jobs && m.jobs[j].status != BalanceRefunded && BuysFor(m, a, m.jobs[j])
      ensures m.attempts[a].job == Some(j)
    {
      assert j != job;
      assert BuysFor(l, a, l.jobs[j]);
    }
  }

  lemma CloseMoney(l: Ledger, plans: Plans, job: Id, ended: Job, bought: seq<Document>)
    requires MoneySound(l, plans) && job in l.jobs && IsClosed(ended) && l.jobs[job].status != BalanceRefunded
    requires ended == l.jobs[job].(status := ended.status, refund := ended.refund)
    requires ended.status == Completed ==> ended.refund == 0
    requires BooksAt(l.(jobs := l.jobs[job := ended]), job, bought)
    ensures MoneySound(l.(jobs := l.jobs[job := ended]), plans)
  {
    hide *;
    var m := l.(jobs := l.jobs[job := ended]);
    OfLedger(l, plans);
    ClosedExclusive(l, m, job, ended);
    OfJob(l, plans, job);
    ClosedSound(l, m, job, ended, bought);
    forall a | a in m.attempts ensures AttemptSound(m, plans, a) {
      OfAttempt(l, plans, a);
      ClosingLeaves(l, m, plans, job, ended, a);
    }
    forall j | j in m.jobs ensures JobSound(m.jobs[j], m) && (IsClosed(m.jobs[j]) ==> Books(m, j)) {
      if j != job {
        OfJob(l, plans, j);
        OtherJobStays(l, m, j);
      }
    }
    Assemble(l, m, plans);
  }

  lemma ClosedSound(l: Ledger, m: Ledger, job: Id, ended: Job, bought: seq<Document>)
    requires job in l.jobs && JobSound(l.jobs[job], l) && IsClosed(ended)
    requires ended == l.jobs[job].(status := ended.status, refund := ended.refund)
    requires m == l.(jobs := l.jobs[job := ended])
    requires (ended.status == Completed ==> ended.refund == 0) && BooksAt(m, job, bought)
    ensures JobSound(m.jobs[job], m) && Books(m, job)
  {
  }

  lemma ClosedExclusive(l: Ledger, m: Ledger, job: Id, ended: Job)
    requires Exclusive(l) && job in l.jobs && l.jobs[job].status != BalanceRefunded
    requires ended == l.jobs[job].(status := ended.status, refund := ended.refund)
    requires m == l.(jobs := l.jobs[job := ended])
    ensures Exclusive(m)
  {
    forall a, j | a in m.attempts && j in m.jobs && m.jobs[j].status != BalanceRefunded && BuysFor(m, a, m.jobs[j])
      ensures m.attempts[a].job == Some(j)
    {
      assert BuysFor(l, a, l.jobs[j]);
    }
  }

  lemma ClosingLeaves(l: Ledger, m: Ledger, plans: Plans, job: Id, ended: Job, a: Id)
    requires a in l.attempts && AttemptSound(l, plans, a) && job in l.jobs
    requires ended == l.jobs[job].(status := ended.status, refund := ended.refund)
    requires m == l.(jobs := l.jobs[job := ended])
    ensures AttemptSound(m, plans, a)
  {
  }

  /** A delivered document of an unrefunded job was bought by a settled attempt of that very job. */
  lemma DeliveredIsBought(l: Ledger, plans: Plans, job: Id, document: Id)
    requires MoneySound(l, plans) && DeliveredBySettlement(l) && job in l.jobs && l.jobs[job].status != BalanceRefunded
    requires DocumentDelivered(l, l.jobs[job], document)
    ensures BoughtBy(l, job, document)
  {
    var q := l.jobs[job].listed[document];
    assert JobSound(l.jobs[job], l) && HasSettlement(l, q);
    var a :| a in l.attempts && l.attempts[a].quote == q && l.attempts[a].status == Settled;
    assert BuysFor(l, a, l.jobs[job]);
    assert Settles(l, a, job, document);
  }

  /** What an attempt of the job settled is delivered to the job. */
  lemma SettledIsListed(l: Ledger, plans: Plans, job: Id, attempt: Id, document: Id)
    requires Consistent(l) && MoneySound(l, plans) && job in l.jobs && Settles(l, attempt, job, document)
    ensures HasDocument(l.jobs[job].documents, document) && DocumentDelivered(l, l.jobs[job], document)
  {
    assert AttemptSound(l, plans, attempt) && SettledIsDelivered(l, attempt);
  }

  lemma DocumentsDiffer(documents: seq<Document>)
    requires ValidBundle(documents)
    ensures NoRepeats(documents)
  {
  }

  lemma {:induction false} DeliveredOnce(l: Ledger, j: Job, documents: seq<Document>)
    requires NoRepeats(documents)
    ensures NoRepeats(DeliveredOf(l, j, documents))
  {
    if |documents| > 0 {
      var init, last := documents[..|documents| - 1], documents[|documents| - 1];
      DeliveredOnce(l, j, init);
      assert last !in DeliveredOf(l, j, init);
    }
  }

  /** Only all documents cost as much as all documents. */
  lemma AllBought(documents: seq<Document>, bought: seq<Document>)
    requires ValidBundle(documents) && NoRepeats(bought) && forall d :: d in bought ==> d in documents
    requires SumOf(bought, PriceOf) >= SumOf(documents, PriceOf)
    ensures forall d :: d in documents ==> d in bought
  {
    forall d | d in documents ensures d in bought {
      var k :| 0 <= k < |documents| && documents[k] == d;
      if d !in bought {
        var rest := documents[..k] + documents[k + 1..];
        forall x | x in bought ensures x in rest {
          var i :| 0 <= i < |documents| && documents[i] == x;
          assert rest[if i < k then i else i - 1] == x;
        }
        SumOfPart(bought, rest, PriceOf);
        SumOfWithout(documents, k, PriceOf);
      }
    }
  }

  /** The books of a job closed with what it has been delivered so far. */
  lemma ClosingBooks(l: Ledger, plans: Plans, job: Id, ended: Job, bought: seq<Document>)
    requires Consistent(l) && MoneySound(l, plans) && DeliveredBySettlement(l)
    requires job in l.jobs && l.jobs[job].status != BalanceRefunded
    requires ended == l.jobs[job].(status := ended.status, refund := ended.refund)
    requires bought == DeliveredOf(l, l.jobs[job], l.jobs[job].documents)
    requires SumOf(bought, PriceOf) + ended.refund == Budget(l.jobs[job])
    requires ended.status == Completed ==> ended.refund == 0
    ensures BooksAt(l.(jobs := l.jobs[job := ended]), job, bought)
  {
    var m, j := l.(jobs := l.jobs[job := ended]), l.jobs[job];
    OfJob(l, plans, job);
    hide Consistent, MoneySound, DeliveredBySettlement, Settles, DocumentDelivered, DeliveredOf;
    DocumentsDiffer(j.documents);
    DeliveredOnce(l, j, j.documents);
    forall d | d in bought ensures BoughtBy(m, job, d.id) {
      InDelivered(l, j, d);
      DeliveredIsBought(l, plans, job, d.id);
      SameSettlers(l, m, job, d.id);
    }
    forall a, d | Settles(m, a, job, d) ensures HasDocument(bought, d) {
      SameSettler(l, m, job, d, a);
      SettledIsListed(l, plans, job, a, d);
      ListedIsDelivered(l, j, d);
    }
    if ended.status == Completed {
      forall d | d in bought ensures d in j.documents { InDelivered(l, j, d); }
      AllBought(j.documents, bought);
    }
  }

  lemma InDelivered(l: Ledger, j: Job, d: Document)
    requires d in DeliveredOf(l, j, j.documents)
    ensures d in j.documents && DocumentDelivered(l, j, d.id)
  {
  }

  lemma ListedIsDelivered(l: Ledger, j: Job, document: Id)
    requires HasDocument(j.documents, document) && DocumentDelivered(l, j, document)
    ensures HasDocument(DeliveredOf(l, j, j.documents), document)
  {
    var k :| 0 <= k < |j.documents| && j.documents[k].id == document;
    assert j.documents[k] in DeliveredOf(l, j, j.documents);
  }

  lemma SameSettler(l: Ledger, m: Ledger, job: Id, document: Id, attempt: Id)
    requires m.attempts == l.attempts && m.quotes == l.quotes && Settles(m, attempt, job, document)
    ensures Settles(l, attempt, job, document)
  {
  }

  lemma SameSettlers(l: Ledger, m: Ledger, job: Id, document: Id)
    requires m.attempts == l.attempts && m.quotes == l.quotes && BoughtBy(l, job, document)
    ensures BoughtBy(m, job, document)
  {
    var a :| Settles(l, a, job, document);
    assert Settles(m, a, job, document);
  }

  /** No job is delivered more than its budget's worth. */
  lemma SpentWithinBudget(l: Ledger, j: Job)
    requires ValidBundle(j.documents)
    ensures Spent(l, j) <= Budget(j)
  {
    DocumentsDiffer(j.documents);
    DeliveredOnce(l, j, j.documents);
    SumOfPart(DeliveredOf(l, j, j.documents), j.documents, PriceOf);
  }

  lemma FailMoney(l: Ledger, plans: Plans, job: Id, prepaid: bool)
    requires Consistent(l) && MoneySound(l, plans) && DeliveredBySettlement(l) && Fail(l, job, prepaid).Ok?
    ensures MoneySound(Fail(l, job, prepaid).value, plans)
  {
    var j := l.jobs[job];
    if !IsClosed(j) {
      assert JobSound(j, l);
      SpentWithinBudget(l, j);
      hide MoneySound, Consistent, BooksAt;
      var bought := DeliveredOf(l, j, j.documents);
      ClosingBooks(l, plans, job, Closed(l, j, prepaid), bought);
      CloseMoney(l, plans, job, Closed(l, j, prepaid), bought);
    }
  }

  lemma {:induction false} AllDelivered(l: Ledger, j: Job, documents: seq<Document>)
    requires forall k :: 0 <= k < |documents| ==> DocumentDelivered(l, j, documents[k].id)
    ensures DeliveredOf(l, j, documents) == documents
  {
    if |documents| > 0 {
      AllDelivered(l, j, documents[..|documents| - 1]);
    }
  }

  lemma CompleteMoney(l: Ledger, plans: Plans, job: Id)
    requires Consistent(l) && MoneySound(l, plans) && DeliveredBySettlement(l) && Complete(l, job).Ok?
    ensures MoneySound(Complete(l, job).value, plans)
  {
    var j := l.jobs[job];
    assert JobSound(j, l);
    AllDelivered(l, j, j.documents);
    hide MoneySound, Consistent, BooksAt;
    var ended := j.(status := Completed);
    ClosingBooks(l, plans, job, ended, j.documents);
    CloseMoney(l, plans, job, ended, j.documents);
  }

  // ---- a plan is accepted ----

  lemma AcceptMoney(l: Ledger, plans: Plans, job: Id, quotes: seq<Id>)
    requires MoneySound(l, plans) && PlanFits(l, job, quotes) && job !in plans
    ensures MoneySound(l, plans[job := quotes])
  {
    OfLedger(l, plans);
    FittingPlan(l, plans, job, quotes);
    hide *;
    var more := plans[job := quotes];
    forall a | a in l.attempts ensures AttemptSound(l, more, a) {
      OfAttempt(l, plans, a);
      MorePlans(l, plans, job, quotes, a);
    }
    forall j | j in l.jobs ensures JobSound(l.jobs[j], l) && (IsClosed(l.jobs[j]) ==> Books(l, j)) {
      OfJob(l, plans, j);
    }
    forall j | j in more ensures PlanSound(l, j, more[j]) {
      if j != job {
        OfPlan(l, plans, j);
      }
    }
    Assembled(l, more);
  }

  lemma FittingPlan(l: Ledger, plans: Plans, job: Id, quotes: seq<Id>)
    requires MoneySound(l, plans) && PlanFits(l, job, quotes)
    ensures PlanSound(l, job, quotes)
  {
    OfJob(l, plans, job);
    OfLedger(l, plans);
    hide MoneySound, Books, Exclusive;
    forall d | HasDocument(l.jobs[job].documents, d) ensures Bought(l, quotes, d) {
      var k :| 0 <= k < |l.jobs[job].documents| && l.jobs[job].documents[k].id == d;
      assert Covered(l, l.jobs[job], quotes, d);
    }
  }

  lemma MorePlans(l: Ledger, plans: Plans, job: Id, quotes: seq<Id>, a: Id)
    requires a in l.attempts && AttemptSound(l, plans, a) && job !in plans
    ensures AttemptSound(l, plans[job := quotes], a)
  {
  }
}
