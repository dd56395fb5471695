/**
 * Which plans always balance. A bundle is funded at the prices of its day, its
 * quotes are minted at the rate of theirs; the run below buys one document of a
 * bundle and lets the job fail, whatever the amounts of the quotes are.
 */
module JobBalance {
  import opened Wrappers
  import opened Sorting
  import opened Sums
  import opened Reconciler
  import opened Ledger
  import opened Protocol
  import opened ProtocolSafety
  import opened MoneyInvariant
  import opened ProtocolMoney

  // ---- plans ----

  function Itself(n: nat): nat { n }

  /** A bundle and the amount of each document's quote, affordable as a whole. */
  predicate Affordable(documents: seq<Document>, amounts: seq<nat>) {
    && ValidBundle(documents) && |amounts| == |documents|
    && SumOf(amounts, Itself) <= SumOf(documents, PriceOf)
  }

  /** The job has this bundle, and its accepted plan asks these amounts for its documents. */
  ghost predicate PlannedAt(s: State, job: Id, documents: seq<Document>, amounts: seq<nat>) {
    && job in s.ledger.jobs && s.ledger.jobs[job].documents == documents
    && job in s.accepted && |s.accepted[job]| == |documents| == |amounts|
    && forall i :: 0 <= i < |documents| ==> Asks(s.ledger, s.accepted[job][i], documents[i].id, amounts[i])
  }

  predicate Asks(l: Ledger, quote: Id, document: Id, amount: nat) {
    quote in l.quotes && l.quotes[quote].document == document && l.quotes[quote].amount == amount
  }

  /** A closed job's payments and refund make up its budget. */
  ghost predicate Balances(s: State, job: Id, paid: seq<Id>)
    requires job in s.ledger.jobs
  {
    SumOf(paid, AmountPaid(s.ledger)) + s.ledger.jobs[job].refund == Budget(s.ledger.jobs[job])
  }

  ghost predicate Closes(w: World, events: seq<Event>, s: State, job: Id, paid: seq<Id>) {
    && ValidWorld(w) && Run(w, events) == Some(s) && job in s.ledger.jobs
    && IsClosed(s.ledger.jobs[job]) && AllPaid(s, job, paid)
  }

  /** Some run closes a job on such a plan with payments and refund off its budget. */
  ghost predicate CanUnbalance(documents: seq<Document>, amounts: seq<nat>) {
    exists w: World, events: seq<Event>, s: State, job: Id, paid: seq<Id> ::
      Closes(w, events, s, job, paid) && PlannedAt(s, job, documents, amounts) && !Balances(s, job, paid)
  }

  // ---- quotes of a bundle ----

  /** Quote ids that differ in length. */
  function Name(k: nat): Id {
    seq(k + 1, _ => 'q')
  }

  lemma NamesDiffer(i: nat, k: nat)
    ensures i != k ==> Name(i) != Name(k)
  {
    assert |Name(i)| == i + 1 && |Name(k)| == k + 1;
  }

  function QuoteFor(documents: seq<Document>, amounts: seq<nat>, k: nat, bound: bool): Quote
    requires k < |documents| && k < |amounts|
  {
    Quote(Quoted, 9, documents[k].id, amounts[k], bound)
  }

  function QuotesUpTo(documents: seq<Document>, amounts: seq<nat>, k: nat): map<Id, Quote>
    requires k <= |documents| && k <= |amounts|
  {
    if k == 0 then map[]
    else QuotesUpTo(documents, amounts, k - 1)[Name(k - 1) := QuoteFor(documents, amounts, k - 1, true)]
  }

  function ListedUpTo(documents: seq<Document>, k: nat): map<Id, Id>
    requires k <= |documents|
  {
    if k == 0 then map[] else ListedUpTo(documents, k - 1)[documents[k - 1].id := Name(k - 1)]
  }

  lemma {:induction false} QuotesAre(documents: seq<Document>, amounts: seq<nat>, k: nat)
    requires k <= |documents| && k <= |amounts|
    ensures forall q :: q in QuotesUpTo(documents, amounts, k) ==> exists i :: 0 <= i < k && q == Name(i)
    ensures forall i :: 0 <= i < k ==>
      Name(i) in QuotesUpTo(documents, amounts, k)
      && QuotesUpTo(documents, amounts, k)[Name(i)] == QuoteFor(documents, amounts, i, true)
  {
    if k > 0 {
      QuotesAre(documents, amounts, k - 1);
      forall i | 0 <= i < k - 1 ensures Name(i) != Name(k - 1) {
        NamesDiffer(i, k - 1);
      }
    }
  }

  lemma {:induction false} ListedAre(documents: seq<Document>, k: nat)
    requires k <= |documents| && ValidBundle(documents)
    ensures forall d :: d in ListedUpTo(documents, k) ==> exists i :: 0 <= i < k && d == documents[i].id
    ensures forall i :: 0 <= i < k ==>
      documents[i].id in ListedUpTo(documents, k) && ListedUpTo(documents, k)[documents[i].id] == Name(i)
  {
    if k > 0 {
      ListedAre(documents, k - 1);
    }
  }

  // ---- one more event ----

  /** One more event of a job. */
  lemma JobGoesOn(w: World, events: seq<Event>, e: JobEvent, s: State, t: State)
    requires ValidWorld(w) && Run(w, events) == Some(s) && MayAsk(s, e)
    requires JobStep(s.ledger, e, s.now) == Ok(t.ledger) && t == s.(ledger := t.ledger)
    ensures Run(w, events + [OnJob(e)]) == Some(t)
  {
    hide JobStep, Run;
    RunOne(w, events, OnJob(e), s, t);
  }

  // ---- planning the bundle ----

  function JobOf(documents: seq<Document>, k: nat): Job
    requires k <= |documents|
  {
    Job(Processing, None, documents, ListedUpTo(documents, k), 0)
  }

  /** The first `k` documents have their quotes, listed and bound. */
  function QuotedTo(documents: seq<Document>, amounts: seq<nat>, k: nat): State
    requires k <= |documents| && k <= |amounts|
  {
    Start.(ledger := Start.ledger.(
      jobs := map["j" := JobOf(documents, k)], quotes := QuotesUpTo(documents, amounts, k)))
  }

  function WithQuote(s: State, quote: Id, q: Quote): State {
    s.(ledger := s.ledger.(quotes := s.ledger.quotes[quote := q]))
  }

  function WithJob(s: State, j: Job): State {
    s.(ledger := s.ledger.(jobs := map["j" := j]))
  }

  lemma Opens(w: World, documents: seq<Document>, amounts: seq<nat>) returns (events: seq<Event>)
    requires ValidWorld(w) && ValidBundle(documents) && |amounts| == |documents|
    ensures Run(w, events) == Some(QuotedTo(documents, amounts, 0))
  {
    var funded := WithJob(Start, Job(Funded, None, documents, map[], 0));
    assert Run(w, []) == Some(Start);
    hide Run, ValidBundle;
    assert NewBundle(Start.ledger, "j", documents, 0) == Ok(funded.ledger);
    JobGoesOn(w, [], NewJob("j", documents), Start, funded);
    events := [] + [OnJob(NewJob("j", documents))];
    var t := QuotedTo(documents, amounts, 0);
    assert funded.ledger.jobs["j" := JobOf(documents, 0)] == t.ledger.jobs;
    JobGoesOn(w, events, PlanJob("j"), funded, t);
    events := events + [OnJob(PlanJob("j"))];
  }

  lemma Mints(documents: seq<Document>, amounts: seq<nat>, k: nat)
    requires k < |documents| == |amounts|
    ensures var l := QuotedTo(documents, amounts, k).ledger;
      NewQuote(l, Name(k), documents[k].id, amounts[k], 9)
        == Ok(WithQuote(QuotedTo(documents, amounts, k), Name(k), QuoteFor(documents, amounts, k, false)).ledger)
  {
    QuotesAre(documents, amounts, k);
    forall i | 0 <= i < k ensures Name(i) != Name(k) {
      NamesDiffer(i, k);
    }
  }

  /** The k-th document is listed for the first time. */
  lemma ListsNext(documents: seq<Document>, amounts: seq<nat>, k: nat)
    requires ValidBundle(documents) && k < |documents| == |amounts|
    ensures var s := WithQuote(QuotedTo(documents, amounts, k), Name(k), QuoteFor(documents, amounts, k, false));
      ListQuote(s.ledger, "j", Name(k)) == Ok(WithJob(s, JobOf(documents, k + 1)).ledger)
  {
    var s := WithQuote(QuotedTo(documents, amounts, k), Name(k), QuoteFor(documents, amounts, k, false));
    ListedAre(documents, k);
    assert HasDocument(documents, documents[k].id);
    assert documents[k].id !in ListedUpTo(documents, k);
    assert s.ledger.jobs["j" := JobOf(documents, k + 1)] == map["j" := JobOf(documents, k + 1)];
  }

  /** No other quote of the document is bound. */
  lemma BindsNext(documents: seq<Document>, amounts: seq<nat>, k: nat)
    requires ValidBundle(documents) && k < |documents| == |amounts|
    ensures var s := WithQuote(QuotedTo(documents, amounts, k), Name(k), QuoteFor(documents, amounts, k, false));
      BindQuote(WithJob(s, JobOf(documents, k + 1)).ledger, Name(k)) == Ok(QuotedTo(documents, amounts, k + 1).ledger)
  {
    QuotesAre(documents, amounts, k);
    var before := QuotesUpTo(documents, amounts, k);
    var minted := before[Name(k) := QuoteFor(documents, amounts, k, false)];
    forall q | q in minted && q != Name(k) ensures minted[q].document != documents[k].id {
      var i :| 0 <= i < k && q == Name(i);
    }
    assert minted[Name(k) := QuoteFor(documents, amounts, k, true)] == QuotesUpTo(documents, amounts, k + 1);
  }

  lemma QuotesNext(w: World, documents: seq<Document>, amounts: seq<nat>, k: nat, events: seq<Event>)
    returns (longer: seq<Event>)
    requires ValidWorld(w) && ValidBundle(documents) && k < |documents| == |amounts|
    requires Run(w, events) == Some(QuotedTo(documents, amounts, k))
    ensures Run(w, longer) == Some(QuotedTo(documents, amounts, k + 1))
  {
    Mints(documents, amounts, k);
    ListsNext(documents, amounts, k);
    BindsNext(documents, amounts, k);
    hide Run, ListedUpTo, QuotesUpTo, Name, NewQuote, ListQuote, BindQuote, ValidBundle;
    var s := QuotedTo(documents, amounts, k);
    var s1 := WithQuote(s, Name(k), QuoteFor(documents, amounts, k, false));
    var s2 := WithJob(s1, JobOf(documents, k + 1));
    var mint := MintQuote(Name(k), documents[k].id, amounts[k], 9);
    JobGoesOn(w, events, mint, s, s1);
    longer := events + [OnJob(mint)];
    JobGoesOn(w, longer, ListFor("j", Name(k)), s1, s2);
    longer := longer + [OnJob(ListFor("j", Name(k)))];
    JobGoesOn(w, longer, Bind(Name(k)), s2, QuotedTo(documents, amounts, k + 1));
    longer := longer + [OnJob(Bind(Name(k)))];
  }

  lemma {:induction false} QuotesAll(w: World, documents: seq<Document>, amounts: seq<nat>, k: nat)
    returns (events: seq<Event>)
    requires ValidWorld(w) && ValidBundle(documents) && k <= |documents| == |amounts|
    ensures Run(w, events) == Some(QuotedTo(documents, amounts, k))
  {
    hide *;
    if k == 0 {
      events := Opens(w, documents, amounts);
    } else {
      events := QuotesAll(w, documents, amounts, k - 1);
      events := QuotesNext(w, documents, amounts, k - 1, events);
    }
  }

  function Names(n: nat): (r: seq<Id>)
    ensures |r| == n && forall i :: 0 <= i < n ==> r[i] == Name(i)
  {
    seq(n, i requires 0 <= i < n => Name(i))
  }

  function Planned(documents: seq<Document>, amounts: seq<nat>): State
    requires |amounts| == |documents|
  {
    QuotedTo(documents, amounts, |documents|).(accepted := map["j" := Names(|documents|)])
  }

  lemma PlannedQuote(documents: seq<Document>, amounts: seq<nat>, k: nat)
    requires k < |documents| == |amounts|
    ensures var l := QuotedTo(documents, amounts, |documents|).ledger;
      && Name(k) in l.quotes && l.quotes[Name(k)] == QuoteFor(documents, amounts, k, true)
      && AmountIn(l)(Name(k)) == amounts[k]
  {
    QuotesAre(documents, amounts, |documents|);
    hide QuotesUpTo, ListedUpTo, Name;
  }

  lemma PlanIsFine(documents: seq<Document>, amounts: seq<nat>)
    requires Affordable(documents, amounts)
    ensures PlanFits(QuotedTo(documents, amounts, |documents|).ledger, "j", Names(|documents|))
  {
    var n := |documents|;
    var l, quotes := QuotedTo(documents, amounts, n).ledger, Names(n);
    assert l.jobs["j"] == JobOf(documents, n);
    forall i | 0 <= i < n ensures quotes[i] in l.quotes && l.quotes[quotes[i]] == QuoteFor(documents, amounts, i, true)
      ensures AmountIn(l)(quotes[i]) == amounts[i]
    {
      PlannedQuote(documents, amounts, i);
    }
    forall i, k | 0 <= i < k < n ensures quotes[i] != quotes[k] {
      NamesDiffer(i, k);
    }
    hide QuotesUpTo, ListedUpTo, Name, Names, QuotedTo, AmountIn;
    forall k | 0 <= k < n ensures Covered(l, l.jobs["j"], quotes, documents[k].id) {
      assert quotes[k] in l.quotes && l.quotes[quotes[k]].document == documents[k].id;
    }
    SumOfMapped(quotes, amounts, AmountIn(l), Itself);
  }

  // ---- buying one document ----

  /** What the attempt on the i-th document changes in the planned state. */
  function Buying(documents: seq<Document>, amounts: seq<nat>, i: nat, attempt: Attempt): State
    requires i < |documents| == |amounts|
  {
    var s := Planned(documents, amounts);
    var job := JobOf(documents, |documents|).(status := PaymentInProgress, active := Some((Name(i), "a")));
    s.(ledger := s.ledger.(
      jobs := map["j" := job], attempts := map["a" := attempt], fences := map[Name(i) := "a"]))
  }

  function Begun(quote: Id): Attempt {
    Attempt(Some("j"), quote, Claimed, None, "", 0, None, None)
  }

  function Prepared(quote: Id): Attempt {
    Attempt(Some("j"), quote, AttemptStatus.Prepared, Some([7]), "b", 0, None, None)
  }

  lemma BeginsOne(documents: seq<Document>, amounts: seq<nat>, i: nat)
    requires Affordable(documents, amounts) && i < |documents|
    ensures Begin(Planned(documents, amounts).ledger, "j", Name(i), "a", 0)
      == Ok(Buying(documents, amounts, i, Begun(Name(i))).ledger)
  {
    var l, m := Planned(documents, amounts).ledger, Buying(documents, amounts, i, Begun(Name(i))).ledger;
    QuotesAre(documents, amounts, |documents|);
    ListedAre(documents, |documents|);
    hide QuotesUpTo, ListedUpTo, Name, ValidBundle, SumOf;
    assert l.jobs["j" := m.jobs["j"]] == m.jobs;
    assert l.attempts["a" := Begun(Name(i))] == m.attempts && l.fences[Name(i) := "a"] == m.fences;
  }

  lemma PreparesOne(documents: seq<Document>, amounts: seq<nat>, i: nat)
    requires i < |documents| == |amounts|
    ensures Prepare(Buying(documents, amounts, i, Begun(Name(i))).ledger, "j", "a", Name(i), [7], "b", 0)
      == Ok(Buying(documents, amounts, i, Prepared(Name(i))).ledger)
  {
    hide QuotesUpTo, ListedUpTo, Name;
    var l := Buying(documents, amounts, i, Begun(Name(i))).ledger;
    assert l.attempts["a" := Prepared(Name(i))] == map["a" := Prepared(Name(i))];
  }

  function Entering(quote: Id): Fence {
    Entered(Some("j"), "a", quote, [7], "b")
  }

  function Sent(documents: seq<Document>, amounts: seq<nat>, i: nat): State
    requires i < |documents| == |amounts|
  {
    Buying(documents, amounts, i, Prepared(Name(i))).(fences := map["f" := MaySend([7])], network := {[7]})
  }

  lemma BeginsToPay(w: World, documents: seq<Document>, amounts: seq<nat>, i: nat) returns (events: seq<Event>)
    requires ValidWorld(w) && Affordable(documents, amounts) && i < |documents|
    ensures Run(w, events) == Some(Buying(documents, amounts, i, Begun(Name(i))))
  {
    events := QuotesAll(w, documents, amounts, |documents|);
    PlanIsFine(documents, amounts);
    BeginsOne(documents, amounts, i);
    hide Run, QuotesUpTo, ListedUpTo, Name, Names, PlanFits, Begin, SumOf, ValidBundle;
    var s, t := QuotedTo(documents, amounts, |documents|), Planned(documents, amounts);
    RunOne(w, events, AcceptPlan("j", Names(|documents|)), s, t);
    events := events + [AcceptPlan("j", Names(|documents|))];
    JobGoesOn(w, events, BeginPayment("j", Name(i), "a"), t, Buying(documents, amounts, i, Begun(Name(i))));
    events := events + [OnJob(BeginPayment("j", Name(i), "a"))];
  }

  /** Any fence that enters with the bytes, prepares them and sends them, in states that differ in that only. */
  lemma FenceSends(w: World, events: seq<Event>, s: State, quote: Id, prepared: Ledger) returns (longer: seq<Event>)
    requires ValidWorld(w) && Run(w, events) == Some(s) && s.fences == map[] && s.network == {}
    requires Prepare(s.ledger, "j", "a", quote, [7], "b", s.now) == Ok(prepared)
    ensures Run(w, longer) == Some(s.(ledger := prepared, fences := map["f" := MaySend([7])], network := {[7]}))
  {
    hide Run, Prepare;
    var fence := Entering(quote);
    var s1 := s.(fences := map["f" := fence]);
    var s2 := s.(ledger := prepared, fences := map["f" := MaySend([7])]);
    assert s.fences["f" := fence] == s1.fences;
    RunOne(w, events, OnFence("f", Enters(fence)), s, s1);
    longer := events + [OnFence("f", Enters(fence))];
    assert s1.fences["f" := MaySend([7])] == s2.fences;
    RunOne(w, longer, OnFence("f", Prepares(false)), s1, s2);
    longer := longer + [OnFence("f", Prepares(false))];
    assert s2.network + {[7]} == {[7]};
    RunOne(w, longer, OnFence("f", Sends), s2, s2.(network := {[7]}));
    longer := longer + [OnFence("f", Sends)];
  }

  lemma SendsOne(w: World, documents: seq<Document>, amounts: seq<nat>, i: nat) returns (events: seq<Event>)
    requires ValidWorld(w) && Affordable(documents, amounts) && i < |documents|
    ensures Run(w, events) == Some(Sent(documents, amounts, i))
  {
    events := BeginsToPay(w, documents, amounts, i);
    PreparesOne(documents, amounts, i);
    hide Run, QuotesUpTo, ListedUpTo, Name, Names, Prepare, SumOf, ValidBundle;
    var s := Buying(documents, amounts, i, Begun(Name(i)));
    events := FenceSends(w, events, s, Name(i), Buying(documents, amounts, i, Prepared(Name(i))).ledger);
  }

  function Landed(s: State): State {
    s.(chain := Chain(map[[7] := Landing(1, true, [1])], map[], 1), truthView := 1)
  }

  lemma Lands(w: World, events: seq<Event>, s: State) returns (longer: seq<Event>)
    requires ValidWorld(w) && Run(w, events) == Some(s) && s.network == {[7]}
    requires s.chain == Chain(map[], map[], 0) && s.truthView == 0
    ensures Run(w, longer) == Some(Landed(s))
  {
    hide Run;
    var landing := s.(chain := Chain(map[[7] := Landing(1, true, [1])], map[], 1));
    assert s.chain.landed[[7] := Landing(1, true, [1])] == landing.chain.landed;
    RunOne(w, events, OnChain(Land([7], true, [1])), s, landing);
    longer := events + [OnChain(Land([7], true, [1]))];
    RunOne(w, longer, OnChain(TruthCatchesUp(1)), landing, Landed(s));
    longer := longer + [OnChain(TruthCatchesUp(1))];
  }

  /** The ledger once the i-th document is delivered. */
  function Bought(documents: seq<Document>, amounts: seq<nat>, i: nat, j: Job): State
    requires i < |documents| == |amounts|
  {
    var s := Landed(Sent(documents, amounts, i));
    var quotes := QuotesUpTo(documents, amounts, |documents|);
    var delivered := QuoteFor(documents, amounts, i, true).(status := Delivered);
    var settled := Prepared(Name(i)).(status := Settled, signature := Some([1]));
    s.(ledger := Ledger(
      map["j" := j], quotes[Name(i) := delivered], map["a" := settled], map[], map[[1] := Name(i)]))
  }

  lemma SettlesOne(documents: seq<Document>, amounts: seq<nat>, i: nat)
    requires i < |documents| == |amounts|
    ensures SettleAttempt(Landed(Sent(documents, amounts, i)).ledger, "a", [1])
      == Ok(Bought(documents, amounts, i, JobOf(documents, |documents|)).ledger)
  {
    QuotesAre(documents, amounts, |documents|);
    hide QuotesUpTo, ListedUpTo, Name;
    var l := Landed(Sent(documents, amounts, i)).ledger;
    var m := Bought(documents, amounts, i, JobOf(documents, |documents|)).ledger;
    assert l.jobs["j" := m.jobs["j"]] == m.jobs;
    assert l.attempts["a" := m.attempts["a"]] == m.attempts && l.fences - {Name(i)} == m.fences;
  }

  lemma Delivers(w: World, documents: seq<Document>, amounts: seq<nat>, i: nat) returns (events: seq<Event>)
    requires ValidWorld(w) && Affordable(documents, amounts) && i < |documents|
    ensures Run(w, events) == Some(Bought(documents, amounts, i, JobOf(documents, |documents|)))
  {
    events := SendsOne(w, documents, amounts, i);
    hide Run, QuotesUpTo, ListedUpTo, Name, Names, SumOf, ValidBundle, SettleAttempt;
    events := Lands(w, events, Sent(documents, amounts, i));
    SettlesOne(documents, amounts, i);
    var s, t := Landed(Sent(documents, amounts, i)), Bought(documents, amounts, i, JobOf(documents, |documents|));
    RunOne(w, events, GatewayDelivers("a"), s, t);
    events := events + [GatewayDelivers("a")];
  }

  // ---- the job fails ----

  lemma {:induction false} OnlyOneDelivered(l: Ledger, j: Job, documents: seq<Document>, i: nat)
    requires i < |documents|
    requires forall k :: 0 <= k < |documents| ==> (DocumentDelivered(l, j, documents[k].id) <==> k == i)
    ensures DeliveredOf(l, j, documents) == [documents[i]]
  {
    var init := documents[..|documents| - 1];
    if i == |documents| - 1 {
      NoneDelivered(l, j, init);
    } else {
      OnlyOneDelivered(l, j, init, i);
    }
  }

  lemma {:induction false} NoneDelivered(l: Ledger, j: Job, documents: seq<Document>)
    requires forall k :: 0 <= k < |documents| ==> !DocumentDelivered(l, j, documents[k].id)
    ensures DeliveredOf(l, j, documents) == []
  {
    if |documents| > 0 {
      NoneDelivered(l, j, documents[..|documents| - 1]);
    }
  }

  function Rest(documents: seq<Document>, i: nat): nat
    requires i < |documents|
  {
    SumOf(documents[..i] + documents[i + 1..], PriceOf)
  }

  lemma BoughtQuote(documents: seq<Document>, amounts: seq<nat>, i: nat, j: Job, k: nat)
    requires i < |documents| == |amounts| && k < |documents|
    ensures var l := Bought(documents, amounts, i, j).ledger;
      Name(k) in l.quotes && l.quotes[Name(k)]
        == QuoteFor(documents, amounts, k, true).(status := if k == i then Delivered else Quoted)
  {
    QuotesAre(documents, amounts, |documents|);
    NamesDiffer(k, i);
    hide QuotesUpTo, ListedUpTo, Name;
  }

  lemma DeliveredIsOne(documents: seq<Document>, amounts: seq<nat>, i: nat, k: nat)
    requires ValidBundle(documents) && i < |documents| == |amounts| && k < |documents|
    ensures var j := JobOf(documents, |documents|);
      DocumentDelivered(Bought(documents, amounts, i, j).ledger, j, documents[k].id) <==> k == i
  {
    ListedAre(documents, |documents|);
    BoughtQuote(documents, amounts, i, JobOf(documents, |documents|), k);
    hide QuotesUpTo, ListedUpTo, Name, Bought, ValidBundle;
  }

  lemma SumOfOne(d: Document)
    ensures SumOf([d], PriceOf) == d.price
  {
    assert [d][..0] == [];
  }

  lemma SpentIsOne(documents: seq<Document>, amounts: seq<nat>, i: nat)
    requires ValidBundle(documents) && i < |documents| == |amounts|
    ensures var s := Bought(documents, amounts, i, JobOf(documents, |documents|));
      Refundable(s.ledger, JobOf(documents, |documents|)) == Rest(documents, i)
  {
    var j := JobOf(documents, |documents|);
    var l := Bought(documents, amounts, i, j).ledger;
    hide QuotesUpTo, ListedUpTo, Name, Bought, ValidBundle, SumOf, DeliveredOf, DocumentDelivered;
    forall k | 0 <= k < |documents| ensures DocumentDelivered(l, j, documents[k].id) <==> k == i {
      DeliveredIsOne(documents, amounts, i, k);
    }
    OnlyOneDelivered(l, j, documents, i);
    SumOfWithout(documents, i, PriceOf);
    SumOfOne(documents[i]);
  }

  /** The job closed as refunded, with the prices of all other documents given back. */
  function Refunded(documents: seq<Document>, i: nat): Job
    requires i < |documents|
  {
    JobOf(documents, |documents|).(status := BalanceRefunded, refund := Rest(documents, i))
  }

  lemma FailsIt(documents: seq<Document>, amounts: seq<nat>, i: nat)
    requires ValidBundle(documents) && i < |documents| == |amounts|
    ensures Fail(Bought(documents, amounts, i, JobOf(documents, |documents|)).ledger, "j", true)
      == Ok(Bought(documents, amounts, i, Refunded(documents, i)).ledger)
  {
    SpentIsOne(documents, amounts, i);
    hide QuotesUpTo, ListedUpTo, Name, Rest, Refundable, ValidBundle;
    var l := Bought(documents, amounts, i, JobOf(documents, |documents|)).ledger;
    assert l.jobs["j" := Refunded(documents, i)] == map["j" := Refunded(documents, i)];
  }

  /** One document was bought at its quote's amount; the prices of the others went back. */
  lemma BuysOne(w: World, documents: seq<Document>, amounts: seq<nat>, i: nat) returns (events: seq<Event>)
    requires ValidWorld(w) && Affordable(documents, amounts) && i < |documents|
    ensures Run(w, events) == Some(Bought(documents, amounts, i, Refunded(documents, i)))
  {
    events := Delivers(w, documents, amounts, i);
    FailsIt(documents, amounts, i);
    hide Run, QuotesUpTo, ListedUpTo, Name, Names, SumOf, Fail, Rest, ValidBundle;
    var s := Bought(documents, amounts, i, JobOf(documents, |documents|));
    JobGoesOn(w, events, FailJob("j", true), s, Bought(documents, amounts, i, Refunded(documents, i)));
    events := events + [OnJob(FailJob("j", true))];
  }

  lemma BoughtIsPlanned(documents: seq<Document>, amounts: seq<nat>, i: nat)
    requires Affordable(documents, amounts) && i < |documents|
    ensures PlannedAt(Bought(documents, amounts, i, Refunded(documents, i)), "j", documents, amounts)
  {
    hide QuotesUpTo, ListedUpTo, Name, SumOf;
    forall k | 0 <= k < |documents|
      ensures Asks(Bought(documents, amounts, i, Refunded(documents, i)).ledger, Name(k), documents[k].id, amounts[k])
    {
      BoughtQuote(documents, amounts, i, Refunded(documents, i), k);
    }
  }

  lemma BoughtIsPaid(documents: seq<Document>, amounts: seq<nat>, i: nat)
    requires i < |documents| == |amounts|
    ensures var s := Bought(documents, amounts, i, Refunded(documents, i));
      && AllPaid(s, "j", ["a"]) && IsClosed(s.ledger.jobs["j"])
      && SumOf(["a"], AmountPaid(s.ledger)) == amounts[i]
      && Budget(s.ledger.jobs["j"]) == documents[i].price + s.ledger.jobs["j"].refund
  {
    hide QuotesUpTo, ListedUpTo, Name;
    var s := Bought(documents, amounts, i, Refunded(documents, i));
    assert ["a"][..0] == [];
    SumOfWithout(documents, i, PriceOf);
    assert PaidForJob(s, "j", "a");
  }

  /** The run above is off its budget by as much as the amount is off the price. */
  lemma BuyingOneUnbalances(documents: seq<Document>, amounts: seq<nat>, i: nat)
    requires Affordable(documents, amounts) && i < |documents| && amounts[i] != documents[i].price
    ensures CanUnbalance(documents, amounts)
  {
    var w := World(2, 0, (m: Message) => "b");
    var events := BuysOne(w, documents, amounts, i);
    BoughtIsPlanned(documents, amounts, i);
    BoughtIsPaid(documents, amounts, i);
    var s := Bought(documents, amounts, i, Refunded(documents, i));
    hide Run, AllPaid, PlannedAt, Bought, SumOf, Affordable, IsClosed;
    assert "j" in s.ledger.jobs by { HasJob(documents, amounts, i); }
    assert Closes(w, events, s, "j", ["a"]) && !Balances(s, "j", ["a"]);
  }

  lemma HasJob(documents: seq<Document>, amounts: seq<nat>, i: nat)
    requires i < |documents| == |amounts|
    ensures "j" in Bought(documents, amounts, i, Refunded(documents, i)).ledger.jobs
  {
  }

  lemma PlannedCompares(s: State, job: Id, documents: seq<Document>, amounts: seq<nat>)
    requires ValidBundle(documents) && PlannedAt(s, job, documents, amounts)
    requires forall i :: 0 <= i < |amounts| ==> amounts[i] == documents[i].price
    ensures PlanCompares(s, job, (x: nat, y: nat) => x == y)
  {
    forall q | q in s.accepted[job]
      ensures q in s.ledger.quotes && Compares(s.ledger, documents, q, (x: nat, y: nat) => x == y)
    {
      var i :| 0 <= i < |documents| && s.accepted[job][i] == q;
      assert Asks(s.ledger, q, documents[i].id, amounts[i]);
      PriceFound(documents, i);
    }
  }

  /**
   * On an affordable plan, every run that closes the job balances exactly when
   * each planned amount is the bundle's price of its document.
   */
  lemma BalancesExactly(documents: seq<Document>, amounts: seq<nat>)
    requires Affordable(documents, amounts)
    ensures !CanUnbalance(documents, amounts) <==> forall i :: 0 <= i < |amounts| ==> amounts[i] == documents[i].price
  {
    if i :| 0 <= i < |amounts| && amounts[i] != documents[i].price {
      BuyingOneUnbalances(documents, amounts, i);
    } else if CanUnbalance(documents, amounts) {
      var w: World, events: seq<Event>, s: State, job: Id, paid: seq<Id> :|
        Closes(w, events, s, job, paid) && PlannedAt(s, job, documents, amounts) && !Balances(s, job, paid);
      PlannedCompares(s, job, documents, amounts);
      hide Run, PlanCompares, PlannedAt;
      PlanAtPricesBalances(w, events, job, paid);
    }
  }

  // ---- two documents ----

  function SevenAndFive(): seq<Document> {
    [Document("d", 7), Document("e", 5)]
  }

  lemma TwelveIsAffordable(x: nat, y: nat)
    requires x + y == 12
    ensures Affordable(SevenAndFive(), [x, y]) && SumOf(SevenAndFive(), PriceOf) == 12 && Rest(SevenAndFive(), 0) == 5
  {
    var d := SevenAndFive();
    assert d[..1] == [d[0]] && d[..1][..0] == [] && d[..0] + d[1..] == [d[1]] && [d[1]][..0] == [];
    assert SumOf(d[..1], PriceOf) == 7 && SumOf([d[1]], PriceOf) == 5;
    assert [x, y][..1] == [x] && [x][..0] == [];
    assert SumOf([x], Itself) == x;
  }

  /** Quotes of 8 and 4 for documents of 7 and 5: paid 8, refunded 5, and the budget was 12. */
  lemma ThirteenOfTwelve(w: World) returns (events: seq<Event>, s: State)
    requires ValidWorld(w)
    ensures Run(w, events) == Some(s) && "j" in s.ledger.jobs && IsClosed(s.ledger.jobs["j"]) && AllPaid(s, "j", ["a"])
    ensures Budget(s.ledger.jobs["j"]) == 12 && s.ledger.jobs["j"].refund == 5
    ensures SumOf(["a"], AmountPaid(s.ledger)) == 8
  {
    TwelveIsAffordable(8, 4);
    events := BuysOne(w, SevenAndFive(), [8, 4], 0);
    BoughtIsPaid(SevenAndFive(), [8, 4], 0);
    s := Bought(SevenAndFive(), [8, 4], 0, Refunded(SevenAndFive(), 0));
    hide Run, SumOf, AllPaid, QuotesUpTo, ListedUpTo, Name, Rest;
  }
}
