/**
 * Safety of the payment protocol over every run: the invariant, its
 * preservation by every event, and what it says about money.
 */
module ProtocolSafety {
  import opened Wrappers
  import opened Reconciler
  import opened Ledger
  import opened Protocol

  /** The message never succeeded and never can: it failed, or its blockhash expired before it landed. */
  predicate Dead(w: World, c: Chain, m: Message) {
    if m in c.landed then !c.landed[m].ok else w.token(m) in c.expired
  }

  predicate Succeeded(c: Chain, m: Message) {
    m in c.landed && c.landed[m].ok
  }

  /** The blockhash was already invalid at view `v`. */
  predicate ExpiredBy(w: World, c: Chain, m: Message, v: nat) {
    w.token(m) in c.expired && c.expired[w.token(m)] <= v
  }

  ghost predicate ChainOrdered(w: World, c: Chain) {
    && (forall m :: m in c.landed ==> c.landed[m].slot <= c.height)
    && (forall b :: b in c.expired ==> c.expired[b] <= c.height)
    && (forall m :: m in c.landed && w.token(m) in c.expired ==> c.landed[m].slot < c.expired[w.token(m)])
  }

  /** The ledger's verdict about one attempt agrees with the chain. */
  ghost predicate Grounded(w: World, c: Chain, view: nat, a: Attempt) {
    a.message.Some? ==>
      && (a.status == Released ==> Dead(w, c, a.message.value))
      && (a.status == Settled ==>
            Succeeded(c, a.message.value) && a.signature == Some(c.landed[a.message.value].signature))
      && (a.absenceObservedAt.Some? ==> ExpiredBy(w, c, a.message.value, view))
  }

  ghost predicate PassSound(w: World, s: State, p: Pass) {
    && p.attempt in s.ledger.attempts
    && EvidenceShape(p.row) && Live(p.row)
    && AttemptAdvances(p.row, s.ledger.attempts[p.attempt])
    && p.listView <= s.truthView
    && (p.row.absenceObservedAt.Some? && p.row.message.Some? ==> ExpiredBy(w, s.chain, p.row.message.value, p.listView))
    && (p.phase.Scanned? ==> ScansSound(w, s.chain, p, p.phase.scans))
    && (p.phase.Checked? ==>
          && ScansSound(w, s.chain, p, p.phase.earlier) && AfterScans(p.phase.earlier) == AskBlockhash
          && |p.phase.views| == w.origins
          && (p.phase.views[w.truth] == Some(false) ==> ExpiredBy(w, s.chain, p.row.message.value, s.truthView)))
  }

  /** What the truthful answer of a finished scan still says, however far the chain has moved on. */
  ghost predicate ScansSound(w: World, c: Chain, p: Pass, scans: seq<ScanResult>) {
    && Scannable(w, p.row)
    && |scans| == w.origins && ValidWorld(w)
    && var m := p.row.message.value;
       match scans[w.truth]
       case FoundSettled(s) => Succeeded(c, m) && c.landed[m].signature == s
       case FoundFailed(s) => m in c.landed && !c.landed[m].ok
       case Absent => m in c.landed ==> p.listView < c.landed[m].slot
       case Inconclusive => true
  }

  /** Bytes can be on the wire, or about to be, only when an attempt recorded them first. */
  ghost predicate Recorded(l: Ledger, m: Message) {
    exists a :: a in l.attempts && l.attempts[a].message == Some(m)
  }

  ghost predicate Invariant(w: World, s: State) {
    && ValidWorld(w)
    && Consistent(s.ledger)
    && ChainOrdered(w, s.chain)
    && s.truthView <= s.chain.height
    && (forall a :: a in s.ledger.attempts ==> Grounded(w, s.chain, s.truthView, s.ledger.attempts[a]))
    && (forall p :: p in s.passes ==> PassSound(w, s, s.passes[p]))
    && (forall f :: f in s.fences && s.fences[f].MaySend? ==> Recorded(s.ledger, s.fences[f].message))
    && (forall m :: m in s.network ==> Recorded(s.ledger, m))
    && (forall m :: m in s.chain.landed ==> m in s.network)
  }

  ghost predicate LedgerStepSound(w: World, s: State, l: Ledger) {
    && Consistent(l) && Advances(s.ledger, l)
    && (forall a :: a in l.attempts ==> Grounded(w, s.chain, s.truthView, l.attempts[a]))
  }

  /** A ledger step that only adds or advances rows keeps everything a pass or a fence relies on. */
  lemma LedgerStepKeeps(w: World, s: State, l: Ledger)
    requires Invariant(w, s) && LedgerStepSound(w, s, l)
    ensures Invariant(w, s.(ledger := l))
  {
    var t := s.(ledger := l);
    forall p | p in t.passes ensures PassSound(w, t, t.passes[p]) {
      assert PassSound(w, s, s.passes[p]);
    }
    forall m | Recorded(s.ledger, m) ensures Recorded(l, m) {
      var a :| a in s.ledger.attempts && s.ledger.attempts[a].message == Some(m);
      assert l.attempts[a].message == Some(m);
    }
  }

  lemma JobStepSound(w: World, s: State, e: JobEvent)
    requires Invariant(w, s) && JobStep(s.ledger, e, s.now).Ok?
    ensures LedgerStepSound(w, s, JobStep(s.ledger, e, s.now).value)
  {
    var l := s.ledger;
    var m := JobStep(l, e, s.now).value;
    match e {
      case NewJob(job, _) => NewRowsKeep(l, m);
      case MintQuote(quote, _, _, _) => NewRowsKeep(l, m);
      case PlanJob(job) => PlanKeeps(l, job);
      case ListFor(job, quote) => ListKeeps(l, job, quote);
      case Bind(quote) => BindKeeps(l, quote);
      case BeginPayment(job, quote, attempt) => BeginKeeps(l, job, quote, attempt, s.now);
      case HoldJob(job) => HoldKeeps(l, job);
      case FailJob(job, prepaid) => FailKeeps(l, job, prepaid);
      case CompleteJob(job) => CompleteKeeps(l, job);
    }
    JobStepAttempts(l, e, s.now);
    NoNewVerdicts(w, s, m);
  }

  /** Job events bring no verdict and no evidence: they only add a claimed row or rename prepared to ambiguous. */
  lemma JobStepAttempts(l: Ledger, e: JobEvent, now: nat)
    requires JobStep(l, e, now).Ok?
    ensures var m := JobStep(l, e, now).value;
      forall a :: a in m.attempts ==>
        if a in l.attempts then m.attempts[a] == l.attempts[a] || m.attempts[a] == l.attempts[a].(status := Ambiguous)
        else m.attempts[a].message.None?
  {
  }

  lemma NoNewVerdicts(w: World, s: State, m: Ledger)
    requires Invariant(w, s)
    requires forall a :: a in m.attempts ==>
      if a in s.ledger.attempts
      then m.attempts[a] == s.ledger.attempts[a] || m.attempts[a] == s.ledger.attempts[a].(status := Ambiguous)
      else m.attempts[a].message.None?
    ensures forall a :: a in m.attempts ==> Grounded(w, s.chain, s.truthView, m.attempts[a])
  {
    forall a | a in m.attempts ensures Grounded(w, s.chain, s.truthView, m.attempts[a]) {
      if a in s.ledger.attempts {
        assert Grounded(w, s.chain, s.truthView, s.ledger.attempts[a]);
      }
    }
  }

  lemma NewRowsKeep(l: Ledger, m: Ledger)
    requires Consistent(l) && m.attempts == l.attempts && m.fences == l.fences && m.registry == l.registry
    requires forall j :: j in l.jobs ==> j in m.jobs && m.jobs[j] == l.jobs[j]
    requires forall j :: j in m.jobs && j !in l.jobs ==> m.jobs[j].active.None?
    requires forall q :: q in l.quotes ==> q in m.quotes && m.quotes[q] == l.quotes[q]
    ensures Consistent(m) && Advances(l, m)
  {
    forall a | a in m.attempts && Live(m.attempts[a]) ensures LiveOwnsEverything(m, a) {
      assert LiveOwnsEverything(l, a);
    }
    forall a | a in m.attempts && m.attempts[a].status == Settled ensures SettledIsDelivered(m, a) {
      assert SettledIsDelivered(l, a);
    }
  }

  lemma AdvancesReflexively(l: Ledger)
    ensures Advances(l, l)
  {
  }

  lemma FenceStepKeeps(w: World, s: State, fence: Id, e: FenceEvent)
    requires Invariant(w, s) && FenceStep(s, fence, e).Some?
    ensures Invariant(w, FenceStep(s, fence, e).value)
    ensures Advances(s.ledger, FenceStep(s, fence, e).value.ledger)
  {
    hide Consistent, Advances, PassSound, Grounded, Prepare, PrepareDirect;
    var t := FenceStep(s, fence, e).value;
    if e.Prepares? {
      var r := PrepareFenced(s.ledger, s.fences[fence], s.now);
      if r.Ok? {
        PrepareRecords(w, s, s.fences[fence]);
        LedgerStepKeeps(w, s, r.value);
      }
    }
    AdvancesReflexively(s.ledger);
    SamePasses(w, s.(ledger := t.ledger), t);
  }

  lemma PrepareRecords(w: World, s: State, f: Fence)
    requires Invariant(w, s) && f.Entered? && PrepareFenced(s.ledger, f, s.now).Ok?
    ensures LedgerStepSound(w, s, PrepareFenced(s.ledger, f, s.now).value)
    ensures Recorded(PrepareFenced(s.ledger, f, s.now).value, f.message)
  {
    hide Advances, PassSound, LiveOwnsEverything, SettledIsDelivered, OneSettlementPerQuote;
    if f.job.Some? {
      PrepareKeeps(s.ledger, f.job.value, f.attempt, f.quote, f.message, f.blockhash, s.now);
    } else {
      PrepareDirectKeeps(s.ledger, f.attempt, f.quote, f.message, f.blockhash, s.now);
    }
    var l := PrepareFenced(s.ledger, f, s.now).value;
    assert l.attempts[f.attempt].message == Some(f.message);
    forall a | a in l.attempts ensures Grounded(w, s.chain, s.truthView, l.attempts[a]) {
      if a in s.ledger.attempts {
        assert Grounded(w, s.chain, s.truthView, s.ledger.attempts[a]);
      }
    }
  }

  /** Passes depend on the ledger, the chain and the truthful view only. */
  lemma SamePasses(w: World, s: State, t: State)
    requires Invariant(w, s)
    requires t.ledger == s.ledger && t.chain == s.chain && t.truthView == s.truthView
    requires forall p :: p in t.passes ==> p in s.passes && t.passes[p] == s.passes[p]
    requires forall f :: f in t.fences && t.fences[f].MaySend? ==> Recorded(s.ledger, t.fences[f].message)
    requires s.network <= t.network && forall m :: m in t.network ==> Recorded(s.ledger, m)
    ensures Invariant(w, t)
  {
    forall p | p in t.passes ensures PassSound(w, t, t.passes[p]) {
      assert PassSound(w, s, s.passes[p]);
    }
  }

  lemma RowShape(l: Ledger, attempt: Id)
    requires Consistent(l) && attempt in l.attempts
    ensures EvidenceShape(l.attempts[attempt])
  {
  }

  lemma PassRoundKeeps(w: World, s: State, pass: Id, e: PassEvent)
    requires Invariant(w, s) && PassStep(w, s, pass, e).Some? && !e.Acts? && !e.Defers?
    ensures Invariant(w, PassStep(w, s, pass, e).value)
  {
    hide Consistent, Act, LedgerAfter;
    var t := PassStep(w, s, pass, e).value;
    forall p | p in t.passes ensures PassSound(w, t, t.passes[p]) {
      if p in s.passes {
        assert PassSound(w, s, s.passes[p]);
      } else {
        RowShape(s.ledger, e.attempt);
        assert Grounded(w, s.chain, s.truthView, s.ledger.attempts[e.attempt]);
      }
    }
  }

  /** Two-pass absence is sound: whatever a pass releases is dead on chain, now and for ever. */
  lemma ReleasedByPassIsDead(w: World, s: State, pass: Id)
    requires Invariant(w, s) && pass in s.passes
    requires var p := s.passes[pass];
      p.phase.Checked? && AfterBlockhash(p.phase.views, p.row.absenceObservedAt.Some?) == Release
    ensures Dead(w, s.chain, s.passes[pass].row.message.value)
  {
    var p := s.passes[pass];
    assert PassSound(w, s, p);
    assert !p.phase.earlier[w.truth].FoundSettled? && !p.phase.earlier[w.truth].Inconclusive?;
  }

  lemma PassStepKeeps(w: World, s: State, pass: Id, e: PassEvent)
    requires Invariant(w, s) && PassStep(w, s, pass, e).Some?
    ensures Invariant(w, PassStep(w, s, pass, e).value)
    ensures Advances(s.ledger, PassStep(w, s, pass, e).value.ledger)
  {
    hide Consistent, Advances, Grounded, Decided, Act, DeferOrLeave, NextPhase;
    AdvancesReflexively(s.ledger);
    if e.Acts? || e.Defers? {
      var p := s.passes[pass];
      var t := PassStep(w, s, pass, e).value;
      assert PassSound(w, s, p);
      if e.Acts? && Act(w, s.ledger, p, s.now).Ok? {
        ActKeeps(w, s, pass);
        LedgerStepKeeps(w, s, t.ledger);
      } else {
        DeferringKeeps(w, s, p.attempt);
      }
      SamePasses(w, s.(ledger := t.ledger), t);
    } else {
      PassRoundKeeps(w, s, pass, e);
    }
  }

  lemma DeferringKeeps(w: World, s: State, attempt: Id)
    requires Invariant(w, s)
    ensures Invariant(w, s.(ledger := DeferOrLeave(s.ledger, attempt, s.now)))
    ensures Advances(s.ledger, DeferOrLeave(s.ledger, attempt, s.now))
  {
    if DeferAttempt(s.ledger, attempt, false, s.now).Ok? {
      DeferKeeps(s.ledger, attempt, false, s.now);
      LedgerStepKeeps(w, s, DeferAttempt(s.ledger, attempt, false, s.now).value);
    }
  }

  lemma ActKeeps(w: World, s: State, pass: Id)
    requires Invariant(w, s) && pass in s.passes && Decided(w, s.passes[pass])
    requires Act(w, s.ledger, s.passes[pass], s.now).Ok?
    ensures LedgerStepSound(w, s, Act(w, s.ledger, s.passes[pass], s.now).value)
  {
    var p := s.passes[pass];
    assert PassSound(w, s, p);
    match p.phase {
      case Listed =>
        if p.row.status == Claimed {
          ReleaseSound(w, s, p.attempt, Claimed);
        } else {
          DeferSound(w, s, p.attempt, false);
        }
      case Scanned(scans) =>
        match AfterScans(scans) {
          case Settle(signature) =>
            assert scans[w.truth] == scans[0];
            SettleSound(w, s, p.attempt, signature);
          case Defer => DeferSound(w, s, p.attempt, false);
        }
      case Checked(scans, views) =>
        match AfterBlockhash(views, p.row.absenceObservedAt.Some?) {
          case KeepFence => DeferSound(w, s, p.attempt, false);
          case ObserveAbsence => DeferSound(w, s, p.attempt, true);
          case Release =>
            ReleasedByPassIsDead(w, s, pass);
            ReleaseSound(w, s, p.attempt, p.row.status);
        }
    }
  }

  lemma ReleaseSound(w: World, s: State, attempt: Id, expected: AttemptStatus)
    requires Invariant(w, s) && ReleaseAttempt(s.ledger, attempt, expected, s.now).Ok?
    requires expected == Claimed || Dead(w, s.chain, s.ledger.attempts[attempt].message.value)
    ensures LedgerStepSound(w, s, ReleaseAttempt(s.ledger, attempt, expected, s.now).value)
  {
    ReleaseKeeps(s.ledger, attempt, expected, s.now);
  }

  lemma SettleSound(w: World, s: State, attempt: Id, signature: Signature)
    requires Invariant(w, s) && SettleAttempt(s.ledger, attempt, signature).Ok?
    requires var m := s.ledger.attempts[attempt].message;
      m.Some? && Succeeded(s.chain, m.value) && s.chain.landed[m.value].signature == signature
    ensures LedgerStepSound(w, s, SettleAttempt(s.ledger, attempt, signature).value)
  {
    SettleKeeps(s.ledger, attempt, signature);
    var l := SettleAttempt(s.ledger, attempt, signature).value;
    assert l.attempts.Keys == s.ledger.attempts.Keys;
    forall a | a in l.attempts ensures Grounded(w, s.chain, s.truthView, l.attempts[a]) {
      assert Grounded(w, s.chain, s.truthView, s.ledger.attempts[a]);
      assert a != attempt ==> l.attempts[a] == s.ledger.attempts[a];
    }
  }

  lemma DeferSound(w: World, s: State, attempt: Id, absence: bool)
    requires Invariant(w, s) && DeferAttempt(s.ledger, attempt, absence, s.now).Ok?
    requires absence ==> s.ledger.attempts[attempt].status != Claimed
    requires absence ==> ExpiredBy(w, s.chain, s.ledger.attempts[attempt].message.value, s.truthView)
    ensures LedgerStepSound(w, s, DeferAttempt(s.ledger, attempt, absence, s.now).value)
  {
    DeferKeeps(s.ledger, attempt, absence, s.now);
  }

  /** The chain only gains slots, and nothing lands after its blockhash expired. */
  ghost predicate Grows(w: World, c: Chain, d: Chain) {
    && c.height <= d.height
    && (forall m :: m in c.landed ==> m in d.landed && d.landed[m] == c.landed[m])
    && (forall b :: b in c.expired ==> b in d.expired && d.expired[b] == c.expired[b])
    && (forall m :: m in d.landed && m !in c.landed ==> w.token(m) !in c.expired && c.height < d.landed[m].slot)
  }

  lemma ChainStepGrows(w: World, s: State, e: ChainEvent)
    requires ChainOrdered(w, s.chain) && s.truthView <= s.chain.height && ChainStep(w, s, e).Some?
    ensures var t := ChainStep(w, s, e).value;
      && Grows(w, s.chain, t.chain) && ChainOrdered(w, t.chain)
      && s.truthView <= t.truthView <= t.chain.height
      && t.ledger == s.ledger && t.fences == s.fences && t.network == s.network && t.passes == s.passes
      && (forall m :: m in t.chain.landed && m !in s.chain.landed ==> m in s.network)
  {
  }

  lemma GroundedStays(w: World, c: Chain, d: Chain, v: nat, u: nat, a: Attempt)
    requires Grows(w, c, d) && v <= u && Grounded(w, c, v, a)
    ensures Grounded(w, d, u, a)
  {
  }

  lemma PassSoundStays(w: World, s: State, t: State, p: Pass)
    requires Grows(w, s.chain, t.chain) && s.truthView <= s.chain.height && s.truthView <= t.truthView
    requires t.ledger == s.ledger && PassSound(w, s, p)
    ensures PassSound(w, t, p)
  {
    hide EvidenceShape, AttemptAdvances, Live;
  }

  /** Chain progress and a catching-up view never revoke what a pass or the ledger concluded. */
  lemma ChainStepKeeps(w: World, s: State, e: ChainEvent)
    requires Invariant(w, s) && ChainStep(w, s, e).Some?
    ensures Invariant(w, ChainStep(w, s, e).value)
    ensures Advances(s.ledger, ChainStep(w, s, e).value.ledger)
  {
    hide Consistent, Advances, ChainOrdered, Grounded, PassSound, Grows, ChainStep;
    var t := ChainStep(w, s, e).value;
    ChainStepGrows(w, s, e);
    AdvancesReflexively(s.ledger);
    forall a | a in t.ledger.attempts ensures Grounded(w, t.chain, t.truthView, t.ledger.attempts[a]) {
      GroundedStays(w, s.chain, t.chain, s.truthView, t.truthView, s.ledger.attempts[a]);
    }
    forall p | p in t.passes ensures PassSound(w, t, t.passes[p]) {
      PassSoundStays(w, s, t, s.passes[p]);
    }
  }

  /** Dead once is dead for ever: no event of any kind revives a message. */
  lemma DeadStays(w: World, s: State, e: Event, m: Message)
    requires ValidWorld(w) && Step(w, s, e).Some? && Dead(w, s.chain, m)
    ensures Dead(w, Step(w, s, e).value.chain, m)
  {
    hide JobStep, GatewayStep, PrepareFenced, NextPhase, LedgerAfter, Decided;
  }

  lemma OnJobKeeps(w: World, s: State, e: JobEvent)
    requires Invariant(w, s) && JobStep(s.ledger, e, s.now).Ok?
    ensures Invariant(w, s.(ledger := JobStep(s.ledger, e, s.now).value))
    ensures Advances(s.ledger, JobStep(s.ledger, e, s.now).value)
  {
    JobStepSound(w, s, e);
    LedgerStepKeeps(w, s, JobStep(s.ledger, e, s.now).value);
  }

  lemma GatewayKeeps(w: World, s: State, attempt: Id)
    requires Invariant(w, s) && GatewayStep(s, attempt).Ok?
    ensures Invariant(w, s.(ledger := GatewayStep(s, attempt).value))
    ensures Advances(s.ledger, GatewayStep(s, attempt).value)
  {
    SettleSound(w, s, attempt, s.chain.landed[s.ledger.attempts[attempt].message.value].signature);
    LedgerStepKeeps(w, s, GatewayStep(s, attempt).value);
  }

  /** What workers accepted is no concern of the payment invariant. */
  lemma AcceptKeeps(w: World, s: State, t: State)
    requires Invariant(w, s) && t == s.(accepted := t.accepted)
    ensures Invariant(w, t) && Advances(s.ledger, t.ledger)
  {
    AdvancesReflexively(s.ledger);
    SamePasses(w, s, t);
  }

  lemma StepKeeps(w: World, s: State, e: Event, t: State)
    requires Invariant(w, s) && Step(w, s, e) == Some(t)
    ensures Invariant(w, t) && Advances(s.ledger, t.ledger)
  {
    hide Invariant, Advances, JobStep, FenceStep, PassStep, ChainStep, GatewayStep;
    match e {
      case OnJob(jobEvent) => OnJobKeeps(w, s, jobEvent);
      case OnFence(fence, fenceEvent) => FenceStepKeeps(w, s, fence, fenceEvent);
      case OnPass(pass, passEvent) => PassStepKeeps(w, s, pass, passEvent);
      case OnChain(chainEvent) => ChainStepKeeps(w, s, chainEvent);
      case GatewayDelivers(attempt) => GatewayKeeps(w, s, attempt);
      case AcceptPlan(job, quotes) => AcceptKeeps(w, s, t);
    }
  }

  lemma {:induction false} RunKeeps(w: World, events: seq<Event>)
    requires ValidWorld(w) && Run(w, events).Some?
    ensures Invariant(w, Run(w, events).value)
  {
    if events != [] {
      RunKeeps(w, events[..|events| - 1]);
      StepKeeps(w, Run(w, events[..|events| - 1]).value, events[|events| - 1], Run(w, events).value);
    }
  }

  /** A delivered quote was delivered by a settled attempt. */
  ghost predicate DeliveredBySettlement(l: Ledger) {
    forall q :: q in l.quotes && l.quotes[q].status == Delivered ==> HasSettlement(l, q)
  }

  ghost predicate HasSettlement(l: Ledger, q: Id) {
    exists a :: a in l.attempts && l.attempts[a].quote == q && l.attempts[a].status == Settled
  }

  ghost predicate NothingNewDelivered(l: Ledger, m: Ledger) {
    forall q :: q in m.quotes && m.quotes[q].status == Delivered ==> q in l.quotes && l.quotes[q].status == Delivered
  }

  /** A step that delivers nothing new keeps every delivery backed. */
  lemma NothingDelivered(l: Ledger, m: Ledger)
    requires DeliveredBySettlement(l) && Advances(l, m)
    requires NothingNewDelivered(l, m)
    ensures DeliveredBySettlement(m)
  {
    forall q | q in m.quotes && m.quotes[q].status == Delivered ensures HasSettlement(m, q) {
      assert HasSettlement(l, q);
      var a :| a in l.attempts && l.attempts[a].quote == q && l.attempts[a].status == Settled;
      assert m.attempts[a].status == Settled && m.attempts[a].quote == q;
    }
  }

  lemma SettleDelivers(l: Ledger, attempt: Id, signature: Signature)
    requires Consistent(l) && DeliveredBySettlement(l) && SettleAttempt(l, attempt, signature).Ok?
    ensures DeliveredBySettlement(SettleAttempt(l, attempt, signature).value)
  {
    var m := SettleAttempt(l, attempt, signature).value;
    SettleKeeps(l, attempt, signature);
    forall q | q in m.quotes && m.quotes[q].status == Delivered ensures HasSettlement(m, q) {
      if q == l.attempts[attempt].quote {
        assert m.attempts[attempt].quote == q && m.attempts[attempt].status == Settled;
      } else {
        assert HasSettlement(l, q);
        var a :| a in l.attempts && l.attempts[a].quote == q && l.attempts[a].status == Settled;
        assert m.attempts[a].status == Settled && m.attempts[a].quote == q;
      }
    }
  }

  lemma ActDelivers(w: World, s: State, p: Pass)
    requires Consistent(s.ledger) && DeliveredBySettlement(s.ledger) && Decided(w, p)
    requires Advances(s.ledger, LedgerAfter(w, s, p))
    ensures DeliveredBySettlement(LedgerAfter(w, s, p))
  {
    var r := Act(w, s.ledger, p, s.now);
    if p.phase.Scanned? && AfterScans(p.phase.scans).Settle? && r.Ok? {
      SettleDelivers(s.ledger, p.attempt, AfterScans(p.phase.scans).signature);
    } else {
      NothingDelivered(s.ledger, LedgerAfter(w, s, p));
    }
  }

  lemma GatewayDeliversBacked(s: State, attempt: Id)
    requires Consistent(s.ledger) && DeliveredBySettlement(s.ledger) && GatewayStep(s, attempt).Ok?
    ensures DeliveredBySettlement(GatewayStep(s, attempt).value)
  {
    SettleDelivers(s.ledger, attempt, s.chain.landed[s.ledger.attempts[attempt].message.value].signature);
  }

  lemma DeliveryStep(w: World, s: State, e: Event, t: State)
    requires Invariant(w, s) && Step(w, s, e) == Some(t) && DeliveredBySettlement(s.ledger)
    ensures DeliveredBySettlement(t.ledger)
  {
    StepKeeps(w, s, e, t);
    if e.GatewayDelivers? {
      GatewayDeliversBacked(s, e.attempt);
    } else if e.OnPass? && e.passEvent.Acts? {
      ActDelivers(w, s, s.passes[e.pass]);
    } else {
      QuietStep(w, s, e, t);
      NothingDelivered(s.ledger, t.ledger);
    }
  }

  lemma QuietJob(l: Ledger, e: JobEvent, now: nat)
    requires JobStep(l, e, now).Ok?
    ensures NothingNewDelivered(l, JobStep(l, e, now).value)
  {
  }

  lemma QuietPrepare(l: Ledger, f: Fence, now: nat)
    requires f.Entered? && PrepareFenced(l, f, now).Ok?
    ensures NothingNewDelivered(l, PrepareFenced(l, f, now).value)
  {
  }

  lemma QuietDefer(l: Ledger, attempt: Id, now: nat)
    ensures NothingNewDelivered(l, DeferOrLeave(l, attempt, now))
  {
  }

  lemma QuietFence(s: State, fence: Id, e: FenceEvent)
    requires FenceStep(s, fence, e).Some?
    ensures NothingNewDelivered(s.ledger, FenceStep(s, fence, e).value.ledger)
  {
    hide PrepareFenced;
    if e.Prepares? && PrepareFenced(s.ledger, s.fences[fence], s.now).Ok? {
      QuietPrepare(s.ledger, s.fences[fence], s.now);
    }
  }

  lemma QuietPass(w: World, s: State, pass: Id, e: PassEvent)
    requires ValidWorld(w) && PassStep(w, s, pass, e).Some? && !e.Acts?
    ensures NothingNewDelivered(s.ledger, PassStep(w, s, pass, e).value.ledger)
  {
    hide DeferOrLeave, NextPhase, LedgerAfter, Decided;
    if e.Defers? {
      QuietDefer(s.ledger, s.passes[pass].attempt, s.now);
    }
  }

  lemma QuietStep(w: World, s: State, e: Event, t: State)
    requires ValidWorld(w) && Step(w, s, e) == Some(t) && !e.GatewayDelivers? && !(e.OnPass? && e.passEvent.Acts?)
    ensures NothingNewDelivered(s.ledger, t.ledger)
  {
    hide JobStep, FenceStep, PassStep;
    match e {
      case OnJob(jobEvent) => QuietJob(s.ledger, jobEvent, s.now);
      case OnFence(fence, fenceEvent) => QuietFence(s, fence, fenceEvent);
      case OnPass(pass, passEvent) => QuietPass(w, s, pass, passEvent);
      case OnChain(_) =>
      case AcceptPlan(_, _) =>
    }
  }

  lemma {:induction false} RunDelivers(w: World, events: seq<Event>)
    requires ValidWorld(w) && Run(w, events).Some?
    ensures DeliveredBySettlement(Run(w, events).value.ledger)
  {
    if events != [] {
      RunKeeps(w, events[..|events| - 1]);
      RunDelivers(w, events[..|events| - 1]);
      DeliveryStep(w, Run(w, events[..|events| - 1]).value, events[|events| - 1], Run(w, events).value);
    }
  }

  /**
   * No quote is ever paid twice: in every state of every run, at most one of a
   * quote's attempts, on either rail, has a message that succeeded on chain.
   */
  lemma NoQuoteIsPaidTwice(w: World, events: seq<Event>, a: Id, b: Id)
    requires ValidWorld(w) && Run(w, events).Some?
    requires var s := Run(w, events).value;
      && a in s.ledger.attempts && b in s.ledger.attempts
      && s.ledger.attempts[a].quote == s.ledger.attempts[b].quote
      && s.ledger.attempts[a].message.Some? && Succeeded(s.chain, s.ledger.attempts[a].message.value)
      && s.ledger.attempts[b].message.Some? && Succeeded(s.chain, s.ledger.attempts[b].message.value)
    ensures a == b
  {
    RunKeeps(w, events);
    var s := Run(w, events).value;
    assert Grounded(w, s.chain, s.truthView, s.ledger.attempts[a]);
    assert Grounded(w, s.chain, s.truthView, s.ledger.attempts[b]);
    assert forall x :: x in s.ledger.attempts && Live(s.ledger.attempts[x]) ==> LiveOwnsEverything(s.ledger, x);
    assert forall x :: x in s.ledger.attempts && s.ledger.attempts[x].status == Settled ==>
      SettledIsDelivered(s.ledger, x);
  }

  /** Nothing executes on chain without an attempt that durably recorded it beforehand. */
  lemma EveryLandingIsRecorded(w: World, events: seq<Event>, m: Message)
    requires ValidWorld(w) && Run(w, events).Some? && m in Run(w, events).value.chain.landed
    ensures Recorded(Run(w, events).value.ledger, m)
  {
    RunKeeps(w, events);
  }

  /**
   * Every delivered quote is backed by its own successful transaction, and no
   * signature backs two quotes.
   */
  lemma EveryDeliveryIsBacked(w: World, events: seq<Event>, quote: Id) returns (attempt: Id)
    requires ValidWorld(w) && Run(w, events).Some?
    requires var l := Run(w, events).value.ledger; quote in l.quotes && l.quotes[quote].status == Delivered
    ensures var s := Run(w, events).value;
      && attempt in s.ledger.attempts && s.ledger.attempts[attempt].quote == quote
      && s.ledger.attempts[attempt].message.Some? && Succeeded(s.chain, s.ledger.attempts[attempt].message.value)
      && (forall other | other in s.ledger.attempts && s.ledger.attempts[other].status == Settled ::
            s.ledger.attempts[other].signature == s.ledger.attempts[attempt].signature ==> other == attempt)
  {
    RunKeeps(w, events);
    RunDelivers(w, events);
    var s := Run(w, events).value;
    assert HasSettlement(s.ledger, quote);
    attempt :| attempt in s.ledger.attempts && s.ledger.attempts[attempt].quote == quote
      && s.ledger.attempts[attempt].status == Settled;
    assert Grounded(w, s.chain, s.truthView, s.ledger.attempts[attempt]);
    assert forall x :: x in s.ledger.attempts && s.ledger.attempts[x].status == Settled ==>
      SettledIsDelivered(s.ledger, x);
  }

  /** A longer run only advances the ledger. */
  lemma {:induction false} RunAdvances(w: World, events: seq<Event>, more: seq<Event>)
    requires ValidWorld(w) && Run(w, events + more).Some?
    ensures Run(w, events).Some?
    ensures Advances(Run(w, events).value.ledger, Run(w, events + more).value.ledger)
  {
    if more == [] {
      assert events + more == events;
    } else {
      var shorter := more[..|more| - 1];
      assert (events + more)[..|events + more| - 1] == events + shorter;
      RunAdvances(w, events, shorter);
      RunKeeps(w, events + shorter);
      StepKeeps(w, Run(w, events + shorter).value, more[|more| - 1], Run(w, events + more).value);
    }
  }

  /**
   * Releasing is final and safe: once an attempt is released, no continuation
   * of the run lets its message succeed, even when a fence that had its
   * prepare committed only sends it later.
   */
  lemma ReleasedNeverSucceeds(w: World, events: seq<Event>, more: seq<Event>, attempt: Id)
    requires ValidWorld(w) && Run(w, events + more).Some? && Run(w, events).Some?
    requires var l := Run(w, events).value.ledger;
      attempt in l.attempts && l.attempts[attempt].status == Released && l.attempts[attempt].message.Some?
    ensures !Succeeded(Run(w, events + more).value.chain, Run(w, events).value.ledger.attempts[attempt].message.value)
  {
    hide Run, Consistent, PassSound;
    RunAdvances(w, events, more);
    RunKeeps(w, events + more);
    var t := Run(w, events + more).value;
    assert Grounded(w, t.chain, t.truthView, t.ledger.attempts[attempt]);
  }

  /**
   * A job that was refunded or completed is never charged beyond its delivered
   * quotes: from then on, each of its attempts whose message succeeds is settled.
   */
  lemma ClosedJobOwesNothing(w: World, events: seq<Event>, job: Id, attempt: Id)
    requires ValidWorld(w) && Run(w, events).Some?
    requires var s := Run(w, events).value;
      && job in s.ledger.jobs && !HoldsPayment(s.ledger.jobs[job].status)
      && attempt in s.ledger.attempts && s.ledger.attempts[attempt].job == Some(job)
      && s.ledger.attempts[attempt].message.Some? && Succeeded(s.chain, s.ledger.attempts[attempt].message.value)
    ensures var l := Run(w, events).value.ledger;
      && l.attempts[attempt].status == Settled
      && l.attempts[attempt].quote in l.quotes && l.quotes[l.attempts[attempt].quote].status == Delivered
  {
    RunKeeps(w, events);
    var s := Run(w, events).value;
    assert Grounded(w, s.chain, s.truthView, s.ledger.attempts[attempt]);
    assert forall x :: x in s.ledger.attempts && Live(s.ledger.attempts[x]) ==> LiveOwnsEverything(s.ledger, x);
    assert SettledIsDelivered(s.ledger, attempt);
  }

  predicate ClosedIn(l: Ledger, job: Id) {
    job in l.jobs && IsClosed(l.jobs[job])
  }

  lemma ActLeavesClosed(w: World, s: State, p: Pass, job: Id)
    requires ClosedIn(s.ledger, job) && Decided(w, p)
    ensures ClosedIn(LedgerAfter(w, s, p), job)
  {
  }

  /** A refund or a completion is final: no event reopens the job. */
  lemma ClosedJobStaysClosed(w: World, s: State, e: Event, t: State, job: Id)
    requires Invariant(w, s) && Step(w, s, e) == Some(t) && ClosedIn(s.ledger, job)
    ensures ClosedIn(t.ledger, job)
  {
    hide Invariant, ClosedIn, JobStep, FenceStep, PassStep, GatewayStep;
    LedgerIsConsistent(w, s);
    match e {
      case OnJob(jobEvent) => JobStepLeavesClosed(s.ledger, jobEvent, s.now, job);
      case OnFence(fence, fenceEvent) => FenceLeavesClosed(s, fence, fenceEvent, job);
      case OnPass(pass, passEvent) => PassLeavesClosed(w, s, pass, passEvent, job);
      case OnChain(_) =>
      case GatewayDelivers(attempt) => GatewayLeavesClosed(s, attempt, job);
      case AcceptPlan(_, _) =>
    }
  }

  lemma LedgerIsConsistent(w: World, s: State)
    requires Invariant(w, s)
    ensures Consistent(s.ledger) && ValidWorld(w)
  {
  }

  lemma FenceLeavesClosed(s: State, fence: Id, e: FenceEvent, job: Id)
    requires ClosedIn(s.ledger, job) && FenceStep(s, fence, e).Some?
    ensures ClosedIn(FenceStep(s, fence, e).value.ledger, job)
  {
    hide ClosedIn, PrepareFenced;
    if e.Prepares? && PrepareFenced(s.ledger, s.fences[fence], s.now).Ok? {
      PrepareLeavesClosed(s.ledger, s.fences[fence], s.now, job);
    }
  }

  lemma PassLeavesClosed(w: World, s: State, pass: Id, e: PassEvent, job: Id)
    requires ValidWorld(w) && ClosedIn(s.ledger, job) && PassStep(w, s, pass, e).Some?
    ensures ClosedIn(PassStep(w, s, pass, e).value.ledger, job)
  {
    hide ClosedIn, DeferOrLeave, NextPhase, LedgerAfter, Decided;
    if e.Acts? {
      ActLeavesClosed(w, s, s.passes[pass], job);
    } else if e.Defers? {
      DeferLeavesClosed(s.ledger, s.passes[pass].attempt, s.now, job);
    }
  }

  lemma PrepareLeavesClosed(l: Ledger, f: Fence, now: nat, job: Id)
    requires ClosedIn(l, job) && f.Entered? && PrepareFenced(l, f, now).Ok?
    ensures ClosedIn(PrepareFenced(l, f, now).value, job)
  {
  }

  lemma DeferLeavesClosed(l: Ledger, attempt: Id, now: nat, job: Id)
    requires ClosedIn(l, job)
    ensures ClosedIn(DeferOrLeave(l, attempt, now), job)
  {
  }

  lemma GatewayLeavesClosed(s: State, attempt: Id, job: Id)
    requires ClosedIn(s.ledger, job) && GatewayStep(s, attempt).Ok?
    ensures ClosedIn(GatewayStep(s, attempt).value, job)
  {
  }

  lemma JobStepLeavesClosed(l: Ledger, e: JobEvent, now: nat, job: Id)
    requires Consistent(l) && ClosedIn(l, job) && JobStep(l, e, now).Ok?
    ensures ClosedIn(JobStep(l, e, now).value, job)
  {
  }

  // ---- who may release ----

  /** No attempt of `l` is newly released in `m`. */
  ghost predicate NothingReleased(l: Ledger, m: Ledger) {
    forall a :: a in l.attempts && a in m.attempts && m.attempts[a].status == Released ==>
      l.attempts[a].status == Released
  }

  lemma PrepareReleasesNothing(l: Ledger, f: Fence, now: nat)
    requires f.Entered? && PrepareFenced(l, f, now).Ok?
    ensures NothingReleased(l, PrepareFenced(l, f, now).value)
  {
  }

  lemma DeferReleasesNothing(l: Ledger, attempt: Id, now: nat)
    ensures NothingReleased(l, DeferOrLeave(l, attempt, now))
  {
  }

  lemma GatewayReleasesNothing(s: State, attempt: Id)
    requires GatewayStep(s, attempt).Ok?
    ensures NothingReleased(s.ledger, GatewayStep(s, attempt).value)
  {
  }

  lemma JobReleasesNothing(l: Ledger, e: JobEvent, now: nat)
    requires JobStep(l, e, now).Ok?
    ensures NothingReleased(l, JobStep(l, e, now).value)
  {
    JobStepAttempts(l, e, now);
  }

  /** What a pass must have listed and seen before its call releases an attempt. */
  predicate Justifies(s: State, p: Pass, attempt: Id)
    requires attempt in s.ledger.attempts
  {
    var a := s.ledger.attempts[attempt];
    && p.attempt == attempt && p.row.status == a.status
    && (a.status == Claimed ||
        (&& p.phase.Checked? && p.row.absenceObservedAt.Some? && a.absenceObservedAt.Some?
         && a.absenceObservedAt.value + ABSENCE_CONFIRMATION_MS <= s.now))
  }

  lemma ReleasesOne(l: Ledger, attempt: Id, expected: AttemptStatus, now: nat, other: Id)
    requires ReleaseAttempt(l, attempt, expected, now).Ok? && other in l.attempts && Live(l.attempts[other])
    requires ReleaseAttempt(l, attempt, expected, now).value.attempts[other].status == Released
    ensures other == attempt && l.attempts[attempt].status == expected
    ensures expected != Claimed ==>
      && l.attempts[attempt].absenceObservedAt.Some?
      && l.attempts[attempt].absenceObservedAt.value + ABSENCE_CONFIRMATION_MS <= now
  {
  }

  lemma DeferralReleasesNothing(l: Ledger, attempt: Id, absence: bool, now: nat)
    requires DeferAttempt(l, attempt, absence, now).Ok?
    ensures NothingReleased(l, DeferAttempt(l, attempt, absence, now).value)
  {
  }

  lemma SettlementReleasesNothing(l: Ledger, attempt: Id, signature: Signature)
    requires SettleAttempt(l, attempt, signature).Ok?
    ensures NothingReleased(l, SettleAttempt(l, attempt, signature).value)
  {
  }

  lemma ActReleases(w: World, s: State, p: Pass, attempt: Id)
    requires Decided(w, p) && attempt in s.ledger.attempts && Live(s.ledger.attempts[attempt])
    requires var m := LedgerAfter(w, s, p); attempt in m.attempts && m.attempts[attempt].status == Released
    ensures Justifies(s, p, attempt)
  {
    var l, r := s.ledger, Act(w, s.ledger, p, s.now);
    hide SettleAttempt, DeferAttempt, ReleaseAttempt, DeferOrLeave;
    if r.Err? {
      DeferReleasesNothing(l, p.attempt, s.now);
    } else if p.phase.Scanned? && AfterScans(p.phase.scans).Settle? {
      SettlementReleasesNothing(l, p.attempt, AfterScans(p.phase.scans).signature);
    } else if r == DeferAttempt(l, p.attempt, false, s.now) {
      DeferralReleasesNothing(l, p.attempt, false, s.now);
    } else if r == DeferAttempt(l, p.attempt, true, s.now) {
      DeferralReleasesNothing(l, p.attempt, true, s.now);
    } else {
      ReleasesOne(l, p.attempt, if p.phase.Listed? then Claimed else p.row.status, s.now, attempt);
    }
  }

  lemma FenceReleasesNothing(s: State, fence: Id, e: FenceEvent)
    requires FenceStep(s, fence, e).Some?
    ensures NothingReleased(s.ledger, FenceStep(s, fence, e).value.ledger)
  {
    hide PrepareFenced;
    if e.Prepares? && PrepareFenced(s.ledger, s.fences[fence], s.now).Ok? {
      PrepareReleasesNothing(s.ledger, s.fences[fence], s.now);
    }
  }

  lemma PassReleases(w: World, s: State, pass: Id, e: PassEvent, attempt: Id)
    requires ValidWorld(w) && PassStep(w, s, pass, e).Some?
    requires attempt in s.ledger.attempts && Live(s.ledger.attempts[attempt])
    requires var m := PassStep(w, s, pass, e).value.ledger;
      attempt in m.attempts && m.attempts[attempt].status == Released
    ensures e.Acts? && pass in s.passes && Justifies(s, s.passes[pass], attempt)
  {
    hide DeferOrLeave, NextPhase, LedgerAfter, Decided, Justifies;
    if e.Acts? {
      ActReleases(w, s, s.passes[pass], attempt);
    } else if e.Defers? {
      DeferReleasesNothing(s.ledger, s.passes[pass].attempt, s.now);
    }
  }

  /**
   * In whatever state, a live attempt is released by nothing but the call of a
   * pass that listed it with the very status it still has: a claim, or, for
   * recorded bytes, a second absence, two minutes after the first.
   */
  lemma ReleasedOnlyByItsPass(w: World, s: State, e: Event, t: State, attempt: Id)
    requires ValidWorld(w) && Step(w, s, e) == Some(t)
    requires attempt in s.ledger.attempts && Live(s.ledger.attempts[attempt])
    requires attempt in t.ledger.attempts && t.ledger.attempts[attempt].status == Released
    ensures e.OnPass? && e.passEvent.Acts? && e.pass in s.passes && Justifies(s, s.passes[e.pass], attempt)
  {
    hide Invariant, JobStep, FenceStep, PassStep, GatewayStep, Justifies;
    match e {
      case OnJob(jobEvent) => JobReleasesNothing(s.ledger, jobEvent, s.now);
      case OnFence(fence, fenceEvent) => FenceReleasesNothing(s, fence, fenceEvent);
      case OnPass(pass, passEvent) => PassReleases(w, s, pass, passEvent, attempt);
      case OnChain(_) =>
      case GatewayDelivers(gateway) => GatewayReleasesNothing(s, gateway);
      case AcceptPlan(_, _) =>
    }
  }

  /** A prepared direct attempt whose bytes are on the wire, and a pass that listed it. */
  function DemoRow(): Attempt {
    Attempt(None, "q", Prepared, Some([7]), "b", 0, None, None)
  }

  function DemoQuote(): Quote {
    Quote(Quoted, 9, "d", 1, true)
  }

  function DemoLedger(): Ledger {
    Start.ledger.(
      quotes := Start.ledger.quotes["q" := DemoQuote()],
      attempts := Start.ledger.attempts["a" := DemoRow()],
      fences := Start.ledger.fences["q" := "a"])
  }

  function DemoSent(): State {
    var fences := Start.fences["f" := Entered(None, "a", "q", [7], "b")]["f" := MaySend([7])];
    Start.(ledger := DemoLedger(), fences := fences, network := Start.network + {[7]})
  }

  function DemoListed(phase: Phase): State {
    var s := DemoSent();
    s.(passes := s.passes["p" := Pass("a", DemoRow(), 0, phase)])
  }

  lemma DemoSends(w: World) returns (events: seq<Event>)
    requires ValidWorld(w)
    ensures Run(w, events) == Some(DemoSent())
  {
    var paid: Fence := Entered(None, "a", "q", [7], "b");
    var minted := Start.(ledger := Start.ledger.(quotes := Start.ledger.quotes["q" := DemoQuote().(bound := false)]));
    var s0 := Start.(ledger := Start.ledger.(quotes := Start.ledger.quotes["q" := DemoQuote()]));
    var s1 := s0.(fences := s0.fences["f" := paid]);
    var s2 := s1.(ledger := DemoLedger(), fences := s1.fences["f" := MaySend([7])]);
    events := [];
    RunOne(w, events, OnJob(MintQuote("q", "d", 1, 9)), Start, minted);
    events := events + [OnJob(MintQuote("q", "d", 1, 9))];
    assert minted.ledger.quotes["q" := DemoQuote()] == s0.ledger.quotes;
    RunOne(w, events, OnJob(Bind("q")), minted, s0); events := events + [OnJob(Bind("q"))];
    RunOne(w, events, OnFence("f", Enters(paid)), s0, s1); events := events + [OnFence("f", Enters(paid))];
    RunOne(w, events, OnFence("f", Prepares(false)), s1, s2); events := events + [OnFence("f", Prepares(false))];
    RunOne(w, events, OnFence("f", Sends), s2, DemoSent()); events := events + [OnFence("f", Sends)];
  }

  lemma DemoScans(w: World) returns (events: seq<Event>)
    requires ValidWorld(w) && w.origins == 2 && w.token([7]) == "b"
    ensures Run(w, events) == Some(DemoListed(Scanned([Absent, Absent])))
  {
    events := DemoSends(w);
    RunOne(w, events, OnPass("p", Lists("a")), DemoSent(), DemoListed(Listed));
    events := events + [OnPass("p", Lists("a"))];
    var t := DemoListed(Listed).(passes :=
      DemoListed(Listed).passes["p" := Pass("a", DemoRow(), 0, Scanned([Absent, Absent]))]);
    RunOne(w, events, OnPass("p", Scans([Absent, Absent], 0)), DemoListed(Listed), t);
    assert t.passes == DemoListed(Scanned([Absent, Absent])).passes;
    events := events + [OnPass("p", Scans([Absent, Absent], 0))];
  }

  lemma DemoBefore()
    ensures var s := DemoListed(Scanned([Absent, Absent]));
      s.chain == Chain(map[], map[], 0) && s.network == {[7]} && s.truthView == 0
  {
  }

  lemma DemoLands(w: World, t: State) returns (events: seq<Event>)
    requires ValidWorld(w) && w.origins == 2 && w.token([7]) == "b"
    requires t == DemoListed(Scanned([Absent, Absent])).(
      chain := Chain(map[[7] := Landing(1, true, [1])], map["b" := 2], 2), truthView := 2)
    ensures Run(w, events) == Some(t)
  {
    events := DemoScans(w);
    hide Run, DemoListed;
    var s0 := DemoListed(Scanned([Absent, Absent]));
    DemoBefore();
    var s1 := s0.(chain := s0.chain.(landed := s0.chain.landed[[7] := Landing(1, true, [1])], height := 1));
    var s2 := s1.(chain := s1.chain.(expired := s1.chain.expired["b" := 2], height := 2));
    RunOne(w, events, OnChain(Land([7], true, [1])), s0, s1); events := events + [OnChain(Land([7], true, [1]))];
    RunOne(w, events, OnChain(Expire("b")), s1, s2); events := events + [OnChain(Expire("b"))];
    assert s2.chain.landed == t.chain.landed && s2.chain.expired == t.chain.expired;
    RunOne(w, events, OnChain(TruthCatchesUp(2)), s2, t); events := events + [OnChain(TruthCatchesUp(2))];
  }

  /**
   * Why one pass is not enough: a reachable state in which a pass holds every
   * absence and every expiry a release asks for, and the message has succeeded.
   * Only the missing earlier observation keeps the attempt from being released.
   */
  lemma SinglePassIsUnsound() returns (w: World, events: seq<Event>)
    ensures ValidWorld(w) && Run(w, events).Some?
    ensures var s := Run(w, events).value;
      && "p" in s.passes && s.passes["p"].phase.Checked?
      && (forall r :: r in s.passes["p"].phase.earlier ==> r == Absent)
      && AfterBlockhash(s.passes["p"].phase.views, false) == ObserveAbsence
      && AfterBlockhash(s.passes["p"].phase.views, true) == Release
      && s.passes["p"].row.message.Some? && Succeeded(s.chain, s.passes["p"].row.message.value)
  {
    w := World(2, 0, (m: Message) => "b");
    var s := DemoListed(Scanned([Absent, Absent])).(
      chain := Chain(map[[7] := Landing(1, true, [1])], map["b" := 2], 2), truthView := 2);
    events := DemoLands(w, s);
    var check := OnPass("p", Checks([Some(false), Some(false)], 2));
    var checked := Checked([Absent, Absent], [Some(false), Some(false)]);
    var t := s.(passes := s.passes["p" := Pass("a", DemoRow(), 0, checked)]);
    RunOne(w, events, check, s, t);
    events := events + [check];
  }

  lemma RunOne(w: World, events: seq<Event>, e: Event, s: State, t: State)
    requires ValidWorld(w) && Run(w, events) == Some(s) && Step(w, s, e) == Some(t)
    ensures Run(w, events + [e]) == Some(t)
  {
    assert (events + [e])[..|events + [e]| - 1] == events;
  }

  /**
   * Losing the response of a prepare call loses nothing in the ledger, only the
   * right to send; a refused call and a crash leave nothing but a closed fence.
   */
  lemma LostResponseOnlyCloses(s: State, fence: Id)
    requires fence in s.fences && s.fences[fence].Entered?
    ensures var lost, kept := FenceStep(s, fence, Prepares(true)), FenceStep(s, fence, Prepares(false));
      && lost.Some? && kept.Some? && lost.value == kept.value.(fences := s.fences - {fence})
      && (PrepareFenced(s.ledger, s.fences[fence], s.now).Ok? ==>
            && kept.value.ledger == PrepareFenced(s.ledger, s.fences[fence], s.now).value
            && kept.value.fences == s.fences[fence := MaySend(s.fences[fence].message)])
      && (PrepareFenced(s.ledger, s.fences[fence], s.now).Err? ==>
            kept.value == s.(fences := s.fences - {fence}) && FenceStep(s, fence, FenceCrashes) == kept)
  {
  }
}
