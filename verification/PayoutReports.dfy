/**
 * Which abandoning reports may be executed late. A report carries a worker id
 * and a claim, and the ledger takes it whenever that worker holds the claim's
 * lease: it does not say which transaction was looked at, nor when
 * (agent-orchestrator/src/refunds.ts, fail_payout_claim in backend/src/store.rs).
 */
module PayoutReports {
  import opened Wrappers
  import opened Payout
  import opened PayoutSafety
  import opened PayoutRuns
  import opened PayoutHeights

  // ---- reports executed under the lease they were sent under ----

  /** The claim's lease has not changed since the report was sent. */
  predicate Fresh(s: State, r: Request) {
    r.lease == LeasesOf(s, r.claim)
  }

  predicate HeldBy(s: State, worker: Id, claim: Id, lease: nat) {
    claim in s.claims && s.claims[claim].leaseOwner == Some(worker) && lease == LeasesOf(s, claim)
  }

  /** The claim is what a pass or a report under that lease takes it for. */
  predicate SameWork(s: State, claim: Id, tx: Tx, noted: bool) {
    && claim in s.claims && s.claims[claim].status == Prepared && s.claims[claim].signature == Some(tx)
    && (s.claims[claim].absenceObservedAt.Some? <==> noted)
  }

  ghost predicate PassWork(s: State, p: Pass) {
    && p.lease <= LeasesOf(s, p.claim)
    && (HeldBy(s, p.worker, p.claim, p.lease) && p.row.status == Prepared && p.row.signature.Some? ==>
          SameWork(s, p.claim, p.row.signature.value, p.row.absenceObservedAt.Some?))
  }

  ghost predicate RequestWork(s: State, r: Request) {
    && r.lease <= LeasesOf(s, r.claim)
    && (HeldBy(s, r.worker, r.claim, r.lease) && r.call.Abandons? ==>
          SameWork(s, r.claim, r.call.seen, r.call.afterAbsence))
  }

  /** While a lease lasts, passes and reports under it agree with the ledger; older leases never come back. */
  ghost predicate LeaseWork(s: State) {
    && (forall k :: k in s.passes ==> PassWork(s, s.passes[k]))
    && (forall r :: r in s.requests ==> RequestWork(s, r))
  }

  /** A prepared claim changes only in giving up its lease. */
  predicate KeepsWork(c: Claim, d: Claim) {
    d.leaseOwner.Some? && c.leaseOwner == d.leaseOwner && c.status == Prepared ==>
      d.status == Prepared && d.signature == c.signature && d.absenceObservedAt == c.absenceObservedAt
  }

  lemma ExecutionKeepsWork(c: Claim, r: Request, now: nat)
    requires Executed(c, r, now).Some?
    ensures KeepsWork(c, Executed(c, r, now).value)
    ensures Executed(c, r, now).value.leaseOwner.Some? ==> c.leaseOwner == Executed(c, r, now).value.leaseOwner
  {
  }

  lemma WorkStays(s: State, t: State, claim: Id, c: Claim)
    requires LeaseWork(s) && claim in s.claims && t == WithClaim(s, claim, c)
    requires KeepsWork(s.claims[claim], c) && (c.leaseOwner.Some? ==> s.claims[claim].leaseOwner == c.leaseOwner)
    ensures LeaseWork(t)
  {
    forall k | k in t.passes ensures PassWork(t, t.passes[k]) {
      assert PassWork(s, s.passes[k]);
    }
    forall r | r in t.requests ensures RequestWork(t, r) {
      assert RequestWork(s, r);
    }
  }

  /** A new lease outdates all others. */
  lemma LeaseStepWork(s: State, pass: Id, worker: Id, claim: Id, expiresAt: nat)
    requires LeaseWork(s) && LeaseStep(s, pass, worker, claim, expiresAt).Some?
    ensures LeaseWork(LeaseStep(s, pass, worker, claim, expiresAt).value)
  {
    var t := LeaseStep(s, pass, worker, claim, expiresAt).value;
    hide Lease;
    forall k | k in t.passes ensures PassWork(t, t.passes[k]) {
      assert k != pass ==> PassWork(s, s.passes[k]);
    }
    forall r | r in t.requests ensures RequestWork(t, r) {
      assert RequestWork(s, r);
    }
  }

  lemma MoreWork(s: State, t: State)
    requires LeaseWork(s) && t.claims == s.claims && t.leases == s.leases
    requires forall k :: k in t.passes && !(k in s.passes && t.passes[k] == s.passes[k]) ==> PassWork(s, t.passes[k])
    requires forall r :: r in t.requests && r !in s.requests ==> RequestWork(s, r)
    ensures LeaseWork(t)
  {
    forall k | k in t.passes ensures PassWork(t, t.passes[k]) {
      assert PassWork(s, t.passes[k]);
    }
    forall r | r in t.requests ensures RequestWork(t, r) {
      assert RequestWork(s, r);
    }
  }

  lemma PassStepWork(w: World, s: State, pass: Id, e: PassEvent)
    requires ValidWorld(w) && LeaseWork(s) && PassStep(w, s, pass, e).Some?
    ensures LeaseWork(PassStep(w, s, pass, e).value)
  {
    if e.TakeLease? {
      LeaseStepWork(s, pass, e.worker, e.claim, e.expiresAt);
    } else {
      var t := PassStep(w, s, pass, e).value;
      assert PassWork(s, s.passes[pass]);
      hide LeaseWork, Observe, TruthfulView;
      MoreWork(s, t);
    }
  }

  lemma ExecuteWork(s: State, r: Request, answered: Option<Id>)
    requires LeaseWork(s) && ExecuteStep(s, r, answered).Some?
    ensures LeaseWork(ExecuteStep(s, r, answered).value)
  {
    var c := Executed(s.claims[r.claim], r, s.now);
    if c.Some? {
      var t := ExecuteStep(s, r, answered).value;
      var moved := WithClaim(s, r.claim, c.value);
      ExecutionKeepsWork(s.claims[r.claim], r, s.now);
      WorkStays(s, moved, r.claim, c.value);
      if answered.Some? {
        assert PassWork(s, s.passes[answered.value]);
        assert c.value.status == Prepared && c.value.signature == Some(r.call.tx);
        assert PassWork(moved, t.passes[answered.value]);
        hide LeaseWork, PassWork, Executed;
        MoreWork(moved, t);
      }
    }
  }

  lemma NewClaimWork(s: State, claim: Id)
    requires LeaseWork(s) && claim !in s.claims
    ensures LeaseWork(WithClaim(s, claim, FreshClaim))
  {
    var t := WithClaim(s, claim, FreshClaim);
    forall k | k in t.passes ensures PassWork(t, t.passes[k]) {
      assert PassWork(s, s.passes[k]);
    }
    forall r | r in t.requests ensures RequestWork(t, r) {
      assert RequestWork(s, r);
    }
  }

  lemma StepWork(w: World, s: State, e: Event, t: State)
    requires ValidWorld(w) && LeaseWork(s) && Step(w, s, e) == Some(t)
    ensures LeaseWork(t)
  {
    hide LeaseWork, PassStep, ExecuteStep;
    match e {
      case OnPass(pass, passEvent) => PassStepWork(w, s, pass, passEvent);
      case Executes(request, answered) => ExecuteWork(s, request, answered);
      case OnChain(_) => MoreWork(s, t);
      case NewClaim(claim) => NewClaimWork(s, claim);
    }
  }

  lemma {:induction false} RunWork(w: World, events: seq<Event>)
    requires ValidWorld(w) && Run(w, events).Some?
    ensures LeaseWork(Run(w, events).value)
  {
    if |events| > 0 {
      var before := events[..|events| - 1];
      assert Run(w, before).Some? && Step(w, Run(w, before).value, events[|events| - 1]) == Run(w, events);
      hide Run, Step, LeaseWork;
      RunWork(w, before);
      StepWork(w, Run(w, before).value, events[|events| - 1], Run(w, events).value);
    }
  }

  /** Under the lease it was sent under, a report can do no harm. */
  lemma FreshIsHarmless(s: State, r: Request)
    requires LeaseWork(s) && r in s.requests && r.claim in s.claims && (r.call.Abandons? ==> Fresh(s, r))
    ensures Harmless(EffectOf(s.claims[r.claim], r, s.now))
  {
    assert RequestWork(s, r);
  }

  /** Every abandoning report of the run is executed under the lease it was sent under. */
  ghost predicate FreshReports(w: World, events: seq<Event>)
    requires ValidWorld(w)
  {
    |events| > 0 ==>
      && FreshReports(w, events[..|events| - 1])
      && (var s, e := Run(w, events[..|events| - 1]), events[|events| - 1];
          s.Some? && e.Executes? && e.request.call.Abandons? ==> Fresh(s.value, e.request))
  }

  lemma FreshStepIsCareful(w: World, s: State, e: Event)
    requires ValidWorld(w) && LeaseWork(s) && Step(w, s, e).Some?
    requires e.Executes? && e.request.call.Abandons? ==> Fresh(s, e.request)
    ensures Harmless(EventEffect(s, e))
  {
    hide LeaseWork, EffectOf;
    if e.Executes? && e.request.claim in s.claims {
      FreshIsHarmless(s, e.request);
    }
  }

  /** A ledger that compared the lease would make every run careful. */
  lemma {:induction false} FreshIsCareful(w: World, events: seq<Event>)
    requires ValidWorld(w) && Run(w, events).Some? && FreshReports(w, events)
    ensures Careful(w, events)
  {
    if |events| > 0 {
      var before := events[..|events| - 1];
      assert Run(w, before).Some? && Step(w, Run(w, before).value, events[|events| - 1]) == Run(w, events);
      FreshIsCareful(w, before);
      hide Run, Step, LeaseWork, Harmless, EventEffect, Fresh;
      RunWork(w, before);
      FreshStepIsCareful(w, Run(w, before).value, events[|events| - 1]);
    }
  }

  // ---- which late reports do harm ----

  /** Heights are recorded in full; abandoning calls are harmless, or of this one kind. */
  function KindRules(w: World, kind: Effect): Rules {
    Rules((tx: Tx, r: nat) => w.lastValid(tx) <= r, (e: Effect) => Harmless(e) || e == kind)
  }

  ghost predicate CanPayTwice(kind: Effect) {
    exists w: World, events: seq<Event>, s: State, a: Tx, b: Tx ::
      Reaches(w, events, s, KindRules(w, kind)) && PaidTwice(w, s.chain, a, b)
  }

  /** Three transactions of one claim, valid up to heights 1, 4 and 100; the first origin never lies. */
  function LateWorld(): World {
    World(2, 0, (tx: Tx) => "claim", (tx: Tx) => if tx == "zero" then 1 else if tx == "old" then 4 else 100)
  }

  function LateRules(kind: Effect): Rules {
    KindRules(LateWorld(), kind)
  }

  /** A report of x about the first transaction, sent before an absence was noted or after. */
  predicate Late(s: State, r: Request, afterAbsence: bool) {
    r in s.requests && r.worker == "x" && r.claim == "claim" && r.call == Abandons("zero", afterAbsence)
  }

  lemma RulesAllow(kind: Effect)
    ensures var rules := LateRules(kind);
      && (forall e :: Harmless(e) ==> rules.effects(e)) && rules.effects(kind)
      && rules.heights("zero", 1) && rules.heights("old", 4) && rules.heights("new", 100)
    ensures var w := LateWorld();
      && ValidWorld(w) && w.origins == 2 && w.memo("zero") == w.memo("old") == w.memo("new") == "claim"
      && w.lastValid("zero") == 1 && w.lastValid("old") == 4 && w.lastValid("new") == 100
  {
  }

  /** x has prepared, sent and looked at the first transaction; its report is on its way. */
  lemma FirstLook(kind: Effect) returns (events: seq<Event>, s: State, first: Request)
    ensures Reaches(LateWorld(), events, s, LateRules(kind))
    ensures s.chain == Chain(map[], 2) && s.truthView == 2 && s.now == 0 && s.passes.Keys == {"p0"}
    ensures Late(s, first, false) && HasClaim(s, PreparedAt("zero", 1, 1, "x", 0))
  {
    var w, rules := LateWorld(), LateRules(kind);
    RulesAllow(kind);
    Starts(w, rules);
    hide Reaches, LateWorld, LateRules;
    events := [] + [NewClaim("claim")];
    var created := WithClaim(Start, "claim", FreshClaim);
    Extend(w, [], NewClaim("claim"), Start, created, rules);
    events, s := LeasesAndSends(w, events, created, "p0", "x", "zero", 1, rules);
    events := GrowAndSee(w, events, s, 2, rules);
    s := s.(chain := s.chain.(height := 2), truthView := 2);
    first := ReportOf(s.passes["p0"]);
    events := LooksAbsent(w, events, s, "p0", rules);
    s := s.(requests := s.requests + {first});
  }

  /** y has looked too, and its report was executed; then x has looked once more. */
  lemma SecondLook(kind: Effect) returns (events: seq<Event>, s: State, first: Request, second: Request)
    ensures Reaches(LateWorld(), events, s, LateRules(kind))
    ensures s.chain == Chain(map[], 2) && s.truthView == 2 && s.now == 10 && s.passes.Keys == {"p0", "p1", "p2"}
    ensures Late(s, first, false) && Late(s, second, true)
    ensures HasClaim(s, LeasedBy(Noted(PreparedAt("zero", 1, 1, "x", 0), 10), "x", 10))
  {
    var w, rules := LateWorld(), LateRules(kind);
    RulesAllow(kind);
    events, s, first := FirstLook(kind);
    hide Reaches, LateWorld, LateRules;
    events := Wait(w, events, s, 10, rules);
    s := s.(now := 10);
    events, s := LeasesAgain(w, events, s, "p1", "y", rules);
    var r := ReportOf(s.passes["p1"]);
    events := LooksAbsent(w, events, s, "p1", rules);
    s := s.(requests := s.requests + {r});
    var noted := Noted(LeasedBy(PreparedAt("zero", 1, 1, "x", 0), "y", 10), 10);
    events := ExecutesReport(w, events, s, r, noted, rules);
    s := WithClaim(s, "claim", noted);
    events, s := LeasesAgain(w, events, s, "p2", "x", rules);
    second := ReportOf(s.passes["p2"]);
    events := LooksAbsent(w, events, s, "p2", rules);
    s := s.(requests := s.requests + {second});
  }

  /** Two minutes later y confirms the absence; x's two reports are still on their way. */
  lemma FirstIsFreed(kind: Effect) returns (events: seq<Event>, s: State, first: Request, second: Request)
    ensures Reaches(LateWorld(), events, s, LateRules(kind))
    ensures s.chain == Chain(map[], 2) && s.truthView == 2 && s.now == 120_010
    ensures s.passes.Keys == {"p0", "p1", "p2", "p3"} && Late(s, first, false) && Late(s, second, true)
    ensures HasClaim(s, Freed(1, 120_020))
  {
    var w, rules := LateWorld(), LateRules(kind);
    RulesAllow(kind);
    events, s, first, second := SecondLook(kind);
    hide Reaches, LateWorld, LateRules;
    events := Wait(w, events, s, 120_010, rules);
    s := s.(now := 120_010);
    events, s := LeasesAgain(w, events, s, "p3", "y", rules);
    var r := ReportOf(s.passes["p3"]);
    events := LooksAbsent(w, events, s, "p3", rules);
    s := s.(requests := s.requests + {r});
    events := ExecutesReport(w, events, s, r, Freed(1, 120_020), rules);
    s := WithClaim(s, "claim", Freed(1, 120_020));
  }

  /** x prepares the second transaction and sends it, still at height 2. */
  lemma OldIsSent(kind: Effect) returns (events: seq<Event>, s: State, first: Request, second: Request)
    ensures Reaches(LateWorld(), events, s, LateRules(kind))
    ensures s.chain == Chain(map[], 2) && s.truthView == 2 && s.now == 120_010 && "old" in s.network
    ensures s.passes.Keys == {"p0", "p1", "p2", "p3", "p4"} && Late(s, first, false) && Late(s, second, true)
    ensures HasClaim(s, PreparedAt("old", 4, 2, "x", 120_010))
    ensures var p := s.passes["p4"]; p.worker == "x" && p.claim == "claim" && p.rowView == 2 && HasClaim(s, p.row)
  {
    var w, rules := LateWorld(), LateRules(kind);
    RulesAllow(kind);
    events, s, first, second := FirstIsFreed(kind);
    hide Reaches, LateWorld, LateRules;
    events, s := LeasesAndSends(w, events, s, "p4", "x", "old", 4, rules);
  }

  /** Then it lands in time, and the chain goes on. */
  function AfterLanding(s: State): State {
    s.(chain := Chain(s.chain.landed["old" := Landing(3, true)], 5), truthView := 5)
  }

  lemma OldLands(kind: Effect, events: seq<Event>, s: State) returns (longer: seq<Event>)
    requires Reaches(LateWorld(), events, s, LateRules(kind))
    requires s.chain == Chain(map[], 2) && s.truthView == 2 && "old" in s.network
    ensures Reaches(LateWorld(), longer, AfterLanding(s), LateRules(kind))
  {
    var w, rules := LateWorld(), LateRules(kind);
    RulesAllow(kind);
    hide Reaches, LateWorld, LateRules;
    longer := Lands(w, events, s, "old", rules);
    longer := GrowAndSee(w, longer, Landed(s, "old"), 5, rules);
  }

  /** Whoever frees the claim now lets it be paid once more. */
  lemma ThenPaysAgain(kind: Effect, events: seq<Event>, s: State, expiresAt: nat)
    requires Reaches(LateWorld(), events, s, LateRules(kind)) && HasClaim(s, Freed(2, expiresAt))
    requires s.chain == Chain(map["old" := Landing(3, true)], 5) && "new" !in s.passes
    ensures CanPayTwice(kind)
  {
    var w, rules := LateWorld(), LateRules(kind);
    RulesAllow(kind);
    hide Reaches, LateWorld;
    var longer, t := LeasesAndSends(w, events, s, "new", "x", "new", 100, rules);
    longer := Lands(w, longer, t, "new", rules);
    assert PaidTwice(w, Landed(t, "new").chain, "old", "new");
    hide LateRules;
    assert Reaches(w, longer, Landed(t, "new"), KindRules(w, kind));
  }

  /** A late report notes an absence of the second transaction; one later look is then enough to drop it. */
  lemma NotingAnother()
    ensures CanPayTwice(Notes(false))
  {
    var kind := Notes(false);
    var w, rules := LateWorld(), LateRules(kind);
    RulesAllow(kind);
    var events, s, first, _ := OldIsSent(kind);
    hide Reaches, LateWorld, LateRules;
    var sent := PreparedAt("old", 4, 2, "x", 120_010);
    var noted := Noted(sent, 120_010);
    assert EffectOf(sent, first, 120_010) == kind;
    events := ExecutesReport(w, events, s, first, noted, rules);
    s := WithClaim(s, "claim", noted);
    events := Wait(w, events, s, 240_010, rules);
    s := s.(now := 240_010);
    events, s := LeasesAgain(w, events, s, "p5", "y", rules);
    events := OldLands(kind, events, s);
    s := AfterLanding(s);
    DropsByLook(kind, events, s, "p5", "y");
  }

  /** A look under a noted absence that sees nothing: the claim is freed though it has been paid. */
  lemma DropsByLook(kind: Effect, events: seq<Event>, s: State, pass: Id, worker: Id)
    requires Reaches(LateWorld(), events, s, LateRules(kind)) && "new" !in s.passes && pass in s.passes
    requires s.chain == Chain(map["old" := Landing(3, true)], 5) && s.truthView == 5 && s.now == 240_010
    requires HasClaim(s, LeasedBy(Noted(PreparedAt("old", 4, 2, "x", 120_010), 120_010), worker, 240_010))
    requires var p := s.passes[pass];
      p.worker == worker && p.claim == "claim" && p.rowView == 2 && HasClaim(s, p.row)
    ensures CanPayTwice(kind)
  {
    var w, rules := LateWorld(), LateRules(kind);
    RulesAllow(kind);
    hide Reaches, LateWorld, LateRules, CanPayTwice;
    var r := ReportOf(s.passes[pass]);
    var longer := LooksAbsent(w, events, s, pass, rules);
    var t := s.(requests := s.requests + {r});
    longer := ExecutesReport(w, longer, t, r, Freed(2, 240_020), rules);
    ThenPaysAgain(kind, longer, WithClaim(t, "claim", Freed(2, 240_020)), 240_020);
  }

  /** A late report about the first transaction drops the second one, of which one absence was noted. */
  lemma DroppingAnother(afterAbsence: bool)
    ensures CanPayTwice(Drops(false, afterAbsence))
  {
    var kind := Drops(false, afterAbsence);
    var w, rules := LateWorld(), LateRules(kind);
    RulesAllow(kind);
    var events, s, first, second := OldIsSent(kind);
    hide Reaches, LateWorld, LateRules, CanPayTwice;
    events := OldLands(kind, events, s);
    s := AfterLanding(s);
    var r := ReportOf(s.passes["p4"]);
    events := LooksAbsent(w, events, s, "p4", rules);
    s := s.(requests := s.requests + {r});
    var noted := Noted(PreparedAt("old", 4, 2, "x", 120_010), 120_010);
    events := ExecutesReport(w, events, s, r, noted, rules);
    s := WithClaim(s, "claim", noted);
    DropsLate(kind, events, s, if afterAbsence then second else first);
  }

  /** Two minutes after the noted absence x leases the claim, and its late report is executed. */
  lemma DropsLate(kind: Effect, events: seq<Event>, s: State, late: Request)
    requires Reaches(LateWorld(), events, s, LateRules(kind)) && s.passes.Keys <= {"p0", "p1", "p2", "p3", "p4", "p5"}
    requires s.chain == Chain(map["old" := Landing(3, true)], 5) && s.now <= 120_020
    requires late in s.requests && late.worker == "x" && late.claim == "claim" && late.call.Abandons?
    requires "claim" in s.claims && s.claims["claim"].absenceObservedAt == Some(s.now)
    requires s.claims["claim"] == Noted(s.claims["claim"], s.now)
    requires var c := s.claims["claim"];
      && c.status == Prepared && c.signature == Some("old") && WholeEvidence(c) && c.attempts == 2
      && c.preparedAt <= s.now && kind == Drops(late.call.seen == "old", late.call.afterAbsence)
    ensures CanPayTwice(kind)
  {
    var w, rules := LateWorld(), LateRules(kind);
    RulesAllow(kind);
    hide Reaches, LateWorld, LateRules, CanPayTwice;
    var longer := Wait(w, events, s, 240_020, rules);
    var t := s.(now := 240_020);
    longer, t := LeasesAgain(w, longer, t, "p6", "x", rules);
    assert EffectOf(t.claims["claim"], late, 240_020) == kind;
    longer := ExecutesReport(w, longer, t, late, Freed(2, 240_030), rules);
    ThenPaysAgain(kind, longer, WithClaim(t, "claim", Freed(2, 240_030)), 240_030);
  }

  /** Two looks side by side, each of them too early: the second report confirms what only noted an absence. */
  lemma DroppingAfterOneLook()
    ensures CanPayTwice(Drops(true, false))
  {
    var kind := Drops(true, false);
    var w, rules := LateWorld(), LateRules(kind);
    RulesAllow(kind);
    var events, s, _, _ := OldIsSent(kind);
    hide Reaches, LateWorld, LateRules, CanPayTwice;
    events := Wait(w, events, s, 120_020, rules);
    s := s.(now := 120_020);
    events, s := LeasesAgain(w, events, s, "p5", "y", rules);
    events := OldLands(kind, events, s);
    s := AfterLanding(s);
    var late, r := ReportOf(s.passes["p4"]), ReportOf(s.passes["p5"]);
    events := LooksAbsent(w, events, s, "p4", rules);
    s := s.(requests := s.requests + {late});
    events := LooksAbsent(w, events, s, "p5", rules);
    s := s.(requests := s.requests + {r});
    var noted := Noted(LeasedBy(PreparedAt("old", 4, 2, "x", 120_010), "y", 120_020), 120_020);
    events := ExecutesReport(w, events, s, r, noted, rules);
    DropsLate(kind, events, WithClaim(s, "claim", noted), late);
  }

  /**
   * With all heights recorded in full: a claim can be paid twice exactly when a
   * report notes or drops another transaction than the one looked at, or drops
   * one after a look that came before an absence was noted.
   */
  lemma PaidTwiceExactly(kind: Effect)
    ensures CanPayTwice(kind) <==> !Harmless(kind)
  {
    if !Harmless(kind) {
      match kind {
        case Notes(_) => NotingAnother();
        case Drops(sameTx, afterAbsence) =>
          if sameTx {
            DroppingAfterOneLook();
          } else {
            DroppingAnother(afterAbsence);
          }
        case Neither =>
      }
    } else if CanPayTwice(kind) {
      var w: World, events: seq<Event>, s: State, a: Tx, b: Tx :|
        Reaches(w, events, s, KindRules(w, kind)) && PaidTwice(w, s.chain, a, b);
      forall e | e in events ensures EventAsksEnough(w, e) {
        assert Obeys(e, KindRules(w, kind));
      }
      SameEffects(w, events, KindRules(w, kind).effects);
      hide Run, Effects;
      NoClaimPaidTwice(w, events, a, b);
    }
  }

  lemma {:induction false} SameEffects(w: World, events: seq<Event>, allowed: Effect -> bool)
    requires ValidWorld(w) && Effects(w, events, allowed) && forall e :: allowed(e) ==> Harmless(e)
    ensures Careful(w, events)
  {
    if |events| > 0 {
      SameEffects(w, events[..|events| - 1], allowed);
    }
  }

  /**
   * Why one verdict is not enough: a truthful look reports absence although the
   * payout has landed, and the claim keeps its transaction.
   */
  lemma OneAbsenceIsUnsound() returns (w: World, events: seq<Event>, s: State)
    ensures Reaches(w, events, s, KindRules(w, Neither))
    ensures PaidOn(s.chain, "old") && "claim" in s.claims
    ensures exists r :: r in s.requests && r.claim == "claim" && r.call == Abandons("old", false)
    ensures s.claims["claim"].signature == Some("old") && s.claims["claim"].status == Prepared
  {
    w := LateWorld();
    var kind := Neither;
    var rules := LateRules(kind);
    RulesAllow(kind);
    var first, second;
    events, s, first, second := OldIsSent(kind);
    hide Reaches, LateWorld, LateRules;
    events := OldLands(kind, events, s);
    s := AfterLanding(s);
    var r := ReportOf(s.passes["p4"]);
    events := LooksAbsent(w, events, s, "p4", rules);
    s := s.(requests := s.requests + {r});
    assert LateRules(kind) == KindRules(w, Neither) by { SameRules(kind); }
    assert r in s.requests;
  }

  lemma SameRules(kind: Effect)
    ensures LateRules(kind) == KindRules(LateWorld(), kind)
  {
  }
}
