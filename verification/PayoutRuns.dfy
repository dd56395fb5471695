/**
 * Building runs of the payout protocol step by step, for one claim called
 * "claim", while keeping account of what heights they ask to record and what
 * their abandoning calls do.
 */
module PayoutRuns {
  import opened Wrappers
  import opened Payout
  import opened PayoutSafety

  /** What the events of a run may be: which heights are asked for, which effects abandoning calls have. */
  datatype Rules = Rules(heights: (Tx, nat) -> bool, effects: Effect -> bool)

  predicate Obeys(e: Event, rules: Rules) {
    e.OnPass? && e.passEvent.AskToPrepare? ==> rules.heights(e.passEvent.tx, e.passEvent.recorded)
  }

  ghost predicate AllObey(events: seq<Event>, rules: Rules) {
    forall e :: e in events ==> Obeys(e, rules)
  }

  ghost predicate Reaches(w: World, events: seq<Event>, s: State, rules: Rules) {
    ValidWorld(w) && AllObey(events, rules) && Effects(w, events, rules.effects) && Run(w, events) == Some(s)
  }

  lemma Starts(w: World, rules: Rules)
    requires ValidWorld(w)
    ensures Reaches(w, [], Start, rules)
  {
  }

  lemma Extend(w: World, events: seq<Event>, e: Event, s: State, t: State, rules: Rules)
    requires Reaches(w, events, s, rules) && Step(w, s, e) == Some(t)
    requires Obeys(e, rules) && rules.effects(EventEffect(s, e))
    ensures Reaches(w, events + [e], t, rules)
  {
    hide Step, EventEffect;
    assert (events + [e])[..|events + [e]| - 1] == events;
  }

  // ---- the world outside ----

  lemma {:induction false} GrowTo(w: World, events: seq<Event>, s: State, height: nat, rules: Rules)
    returns (longer: seq<Event>)
    requires Reaches(w, events, s, rules) && s.chain.height <= height && rules.effects(Neither)
    ensures Reaches(w, longer, s.(chain := s.chain.(height := height)), rules)
    decreases height - s.chain.height
  {
    hide Reaches;
    if s.chain.height == height {
      longer := events;
    } else {
      var t := s.(chain := s.chain.(height := s.chain.height + 1));
      Extend(w, events, OnChain(Grow), s, t, rules);
      longer := GrowTo(w, events + [OnChain(Grow)], t, height, rules);
    }
  }

  /** The chain grows, and the origin that never lies catches up with it. */
  lemma GrowAndSee(w: World, events: seq<Event>, s: State, height: nat, rules: Rules) returns (longer: seq<Event>)
    requires Reaches(w, events, s, rules) && s.chain.height <= height && s.truthView <= height
    requires rules.effects(Neither)
    ensures Reaches(w, longer, s.(chain := s.chain.(height := height), truthView := height), rules)
  {
    hide Reaches;
    longer := GrowTo(w, events, s, height, rules);
    var grown := s.(chain := s.chain.(height := height));
    Extend(w, longer, OnChain(TruthCatchesUp(height)), grown, grown.(truthView := height), rules);
    longer := longer + [OnChain(TruthCatchesUp(height))];
  }

  lemma Wait(w: World, events: seq<Event>, s: State, time: nat, rules: Rules) returns (longer: seq<Event>)
    requires Reaches(w, events, s, rules) && s.now <= time && rules.effects(Neither)
    ensures Reaches(w, longer, s.(now := time), rules)
  {
    hide Reaches;
    longer := events + [OnChain(Tick(time))];
    Extend(w, events, OnChain(Tick(time)), s, s.(now := time), rules);
  }

  function Landed(s: State, tx: Tx): State {
    var height := s.chain.height + 1;
    s.(chain := Chain(s.chain.landed[tx := Landing(height, true)], height))
  }

  lemma Lands(w: World, events: seq<Event>, s: State, tx: Tx, rules: Rules) returns (longer: seq<Event>)
    requires Reaches(w, events, s, rules) && rules.effects(Neither)
    requires tx in s.network && tx !in s.chain.landed && s.chain.height < w.lastValid(tx)
    ensures Reaches(w, longer, Landed(s, tx), rules)
  {
    hide Reaches;
    longer := events + [OnChain(Land(tx, true))];
    Extend(w, events, OnChain(Land(tx, true)), s, Landed(s, tx), rules);
  }

  // ---- passes and requests ----

  predicate HasClaim(s: State, c: Claim) {
    "claim" in s.claims && s.claims["claim"] == c
  }

  function Leased(s: State, pass: Id, worker: Id, row: Claim): State {
    var lease := LeasesOf(s, "claim") + 1;
    WithClaim(s, "claim", row).(
      leases := s.leases["claim" := lease],
      passes := s.passes[pass := Pass(worker, "claim", lease, row, s.truthView, None, None)])
  }

  lemma Leases(w: World, events: seq<Event>, s: State, pass: Id, worker: Id, expiresAt: nat, row: Claim, rules: Rules)
    returns (longer: seq<Event>)
    requires Reaches(w, events, s, rules) && rules.effects(Neither) && pass !in s.passes && "claim" in s.claims
    requires Lease(s.claims["claim"], worker, s.now, expiresAt) == Some(row)
    ensures Reaches(w, longer, Leased(s, pass, worker, row), rules)
  {
    hide Reaches, Lease;
    var e := OnPass(pass, TakeLease(worker, "claim", expiresAt));
    longer := events + [e];
    Extend(w, events, e, s, Leased(s, pass, worker, row), rules);
  }

  function PrepareRequest(p: Pass, tx: Tx, recorded: nat): Request {
    Request(p.worker, p.claim, p.lease, Prepares(tx, "hash", recorded))
  }

  function Sent(s: State, pass: Id, tx: Tx, recorded: nat, c: Claim): State
    requires pass in s.passes
  {
    var p := s.passes[pass];
    WithClaim(s, "claim", c).(
      requests := s.requests + {PrepareRequest(p, tx, recorded)}, network := s.network + {tx},
      passes := s.passes[pass := p.(row := c, rowView := s.truthView, asked := Some(tx), sending := Some(tx))])
  }

  /** A pass without a transaction prepares one, is answered and broadcasts it. */
  lemma Sends(w: World, events: seq<Event>, s: State, pass: Id, tx: Tx, recorded: nat, c: Claim, rules: Rules)
    returns (longer: seq<Event>)
    requires Reaches(w, events, s, rules) && rules.effects(Neither) && rules.heights(tx, recorded)
    requires "claim" in s.claims && pass in s.passes && s.passes[pass].claim == "claim" && w.memo(tx) == "claim"
    requires ChooseStep(s.passes[pass].row) == BuildNew && s.passes[pass].asked.None?
    requires PrepareClaim(s.claims["claim"], s.passes[pass].worker, tx, "hash", recorded, s.now) == Some(c)
    ensures Reaches(w, longer, Sent(s, pass, tx, recorded, c), rules)
  {
    hide Reaches, PrepareClaim, ChooseStep;
    var p := s.passes[pass];
    var ask, r := OnPass(pass, AskToPrepare(tx, "hash", recorded)), PrepareRequest(p, tx, recorded);
    var s1 := Asks(s, pass, p.(asked := Some(tx)), Prepares(tx, "hash", recorded));
    Extend(w, events, ask, s, s1, rules);
    var answered := s1.passes[pass].(row := c, rowView := s1.truthView, sending := Some(tx));
    var s2 := WithClaim(s1, "claim", c).(passes := s1.passes[pass := answered]);
    Extend(w, events + [ask], Executes(r, Some(pass)), s1, s2, rules);
    var t := Sent(s, pass, tx, recorded, c);
    assert s2.passes == t.passes;
    Extend(w, events + [ask] + [Executes(r, Some(pass))], OnPass(pass, Broadcast), s2, t, rules);
    longer := events + [ask] + [Executes(r, Some(pass))] + [OnPass(pass, Broadcast)];
  }

  /** Two origins that know nothing of the transaction and have come to this height. */
  function AbsentAt(height: nat): seq<Option<View>> {
    [Some(View(Unknown, height)), Some(View(Unknown, height))]
  }

  function ReportOf(p: Pass): Request
    requires ChooseStep(p.row) == ObserveFirst
  {
    Request(p.worker, p.claim, p.lease, Abandons(p.row.signature.value, p.row.absenceObservedAt.Some?))
  }

  /** A truthful look: the status is read where the row was obtained, the height at present. */
  lemma LooksAbsent(w: World, events: seq<Event>, s: State, pass: Id, rules: Rules) returns (longer: seq<Event>)
    requires ValidWorld(w) && Reaches(w, events, s, rules) && rules.effects(Neither) && w.origins == 2
    requires pass in s.passes && ChooseStep(s.passes[pass].row) == ObserveFirst
    requires var p := s.passes[pass];
      && p.rowView <= s.truthView && p.row.lastValid.value < s.truthView
      && (p.row.signature.value in s.chain.landed ==> p.rowView < s.chain.landed[p.row.signature.value].height)
    ensures Reaches(w, longer, s.(requests := s.requests + {ReportOf(s.passes[pass])}), rules)
  {
    hide Reaches;
    var p := s.passes[pass];
    var views := AbsentAt(s.truthView);
    var look := OnPass(pass, Look(views, p.rowView, s.truthView));
    assert views[0].value.blockHeight == s.truthView && views[1].value.blockHeight == s.truthView;
    assert Observe(views, p.row.lastValid.value) == AbsentOrFailed;
    assert s.passes[pass := p] == s.passes;
    longer := events + [look];
    Extend(w, events, look, s, s.(requests := s.requests + {ReportOf(p)}), rules);
  }

  lemma ExecutesReport(w: World, events: seq<Event>, s: State, r: Request, c: Claim, rules: Rules)
    returns (longer: seq<Event>)
    requires Reaches(w, events, s, rules) && r in s.requests && r.claim == "claim" && "claim" in s.claims
    requires r.call.Abandons? && FailClaim(s.claims["claim"], r.worker, true, s.now) == Some(c)
    requires rules.effects(EffectOf(s.claims["claim"], r, s.now))
    ensures Reaches(w, longer, WithClaim(s, "claim", c), rules)
  {
    hide Reaches, FailClaim, EffectOf;
    longer := events + [Executes(r, None)];
    Extend(w, events, Executes(r, None), s, WithClaim(s, "claim", c), rules);
  }

  // ---- claims of these runs ----

  /** A prepared claim under a lease of ten milliseconds taken at `at`. */
  function PreparedAt(tx: Tx, recorded: nat, attempts: nat, worker: Id, at: nat): Claim {
    Claim(Prepared, Some(tx), Some(tx), Some("hash"), Some(recorded), at, None, attempts, Some(worker), at + 10)
  }

  function Noted(c: Claim, at: nat): Claim {
    c.(absenceObservedAt := Some(at), leaseOwner := None)
  }

  function LeasedBy(c: Claim, worker: Id, at: nat): Claim {
    c.(leaseOwner := Some(worker), leaseExpiresAt := at + 10)
  }

  function Freed(attempts: nat, expiresAt: nat): Claim {
    Claim(Failed, None, None, None, None, 0, None, attempts, None, expiresAt)
  }

  /** A claim without a transaction is leased, and a transaction is prepared and broadcast. */
  lemma LeasesAndSends(
    w: World, events: seq<Event>, s: State, pass: Id, worker: Id, tx: Tx, recorded: nat, rules: Rules)
    returns (longer: seq<Event>, t: State)
    requires Reaches(w, events, s, rules) && rules.effects(Neither) && rules.heights(tx, recorded) && recorded > 0
    requires pass !in s.passes && "claim" in s.claims && w.memo(tx) == "claim"
    requires var c := s.claims["claim"];
      (c.status == Pending || c.status == Failed) && NoEvidence(c) && c.absenceObservedAt.None? && c.leaseOwner.None?
      && c.attempts + 1 < MAX_ATTEMPTS
    ensures Reaches(w, longer, t, rules)
    ensures t.chain == s.chain && t.truthView == s.truthView && t.now == s.now && t.network == s.network + {tx}
    ensures s.requests <= t.requests && t.passes.Keys == s.passes.Keys + {pass}
    ensures forall k :: k in s.passes ==> t.passes[k] == s.passes[k]
    ensures HasClaim(t, PreparedAt(tx, recorded, s.claims["claim"].attempts + 1, worker, s.now))
    ensures var p := t.passes[pass];
      && p.worker == worker && p.claim == "claim" && p.rowView == s.truthView
      && HasClaim(t, p.row)
  {
    hide Reaches;
    var c := s.claims["claim"];
    var row := c.(status := Payout.Leased, leaseOwner := Some(worker), leaseExpiresAt := s.now + 10);
    longer := Leases(w, events, s, pass, worker, s.now + 10, row, rules);
    var leased := Leased(s, pass, worker, row);
    var prepared := PreparedAt(tx, recorded, c.attempts + 1, worker, s.now);
    longer := Sends(w, longer, leased, pass, tx, recorded, prepared, rules);
    t := Sent(leased, pass, tx, recorded, prepared);
  }

  /** A prepared claim that nobody holds is leased again. */
  lemma LeasesAgain(w: World, events: seq<Event>, s: State, pass: Id, worker: Id, rules: Rules)
    returns (longer: seq<Event>, t: State)
    requires Reaches(w, events, s, rules) && rules.effects(Neither) && pass !in s.passes && "claim" in s.claims
    requires var c := s.claims["claim"];
      && c.status == Prepared && WholeEvidence(c) && 0 < c.attempts < MAX_ATTEMPTS
      && (c.leaseOwner.None? || c.leaseExpiresAt <= s.now)
    ensures Reaches(w, longer, t, rules)
    ensures t.chain == s.chain && t.truthView == s.truthView && t.now == s.now && t.network == s.network
    ensures t.requests == s.requests && t.passes.Keys == s.passes.Keys + {pass}
    ensures forall k :: k in s.passes ==> t.passes[k] == s.passes[k]
    ensures HasClaim(t, LeasedBy(s.claims["claim"], worker, s.now))
    ensures var p := t.passes[pass];
      p.worker == worker && p.claim == "claim" && p.rowView == s.truthView && HasClaim(t, p.row)
  {
    hide Reaches;
    var row := LeasedBy(s.claims["claim"], worker, s.now);
    longer := Leases(w, events, s, pass, worker, s.now + 10, row, rules);
    t := Leased(s, pass, worker, row);
  }
}
