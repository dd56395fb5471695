/**
 * Safety of the payout protocol over every run whose recorded last valid heights
 * fall short of the real ones by one block at most and whose abandoning calls
 * are harmless where they are executed: an abandoned transaction is dead, a
 * settled claim was paid, and no claim is ever paid twice.
 */
module PayoutSafety {
  import opened Wrappers
  import opened Payout

  /** The transaction never succeeded and never can. */
  predicate Dead(w: World, c: Chain, tx: Tx) {
    if tx in c.landed then !c.landed[tx].ok else w.lastValid(tx) <= c.height
  }

  predicate PaidOn(c: Chain, tx: Tx) {
    tx in c.landed && c.landed[tx].ok
  }

  ghost predicate ChainOrdered(w: World, c: Chain) {
    forall tx :: tx in c.landed ==> c.landed[tx].height <= c.height && c.landed[tx].height <= w.lastValid(tx)
  }

  /** A recorded height one short of the real one is still safe. */
  predicate Suffices(w: World, tx: Tx, recorded: nat) {
    w.lastValid(tx) <= recorded + 1
  }

  /** The origin that never lies had passed the transaction's last valid height when it had come to `view`. */
  predicate ExpiredAt(w: World, tx: Tx, view: nat) {
    w.lastValid(tx) <= view
  }

  /** Evidence is whole or absent, and it is that of the claim's own transaction. */
  ghost predicate ClaimShape(w: World, id: Id, c: Claim) {
    && (c.status == Prepared ==>
          WholeEvidence(c) && c.bytes == c.signature && Suffices(w, c.signature.value, c.lastValid.value))
    && (c.status == Pending || c.status == Failed || c.status == Leased ==> NoEvidence(c) && c.absenceObservedAt.None?)
    && (c.status == Settled ==> c.signature.Some? && c.leaseOwner.None?)
    && (c.signature.Some? ==> w.memo(c.signature.value) == id)
  }

  /** What the ledger believes about a claim is so on chain. */
  ghost predicate ClaimGrounded(w: World, s: State, c: Claim) {
    && (c.status == Settled ==> c.signature.Some? && PaidOn(s.chain, c.signature.value))
    && (c.absenceObservedAt.Some? && c.signature.Some? ==> ExpiredAt(w, c.signature.value, s.truthView))
  }

  /** A signed transaction that may be on the wire is still the claim's evidence, or dead. */
  ghost predicate Accounted(w: World, s: State, tx: Tx) {
    && w.memo(tx) in s.claims
    && (s.claims[w.memo(tx)].signature == Some(tx) || Dead(w, s.chain, tx))
  }

  ghost predicate PassSound(w: World, s: State, p: Pass) {
    && p.claim in s.claims && p.rowView <= s.truthView
    && (p.row.signature.Some? ==> Accounted(w, s, p.row.signature.value))
    && (p.sending.Some? ==> Accounted(w, s, p.sending.value))
    && (p.row.status == Prepared ==>
          p.row.signature.Some? && p.row.lastValid.Some? && Suffices(w, p.row.signature.value, p.row.lastValid.value))
    && (p.row.absenceObservedAt.Some? && p.row.signature.Some? ==> ExpiredAt(w, p.row.signature.value, p.rowView))
  }

  /** What a request on its way still says truly, however late it is executed. */
  ghost predicate RequestSound(w: World, s: State, r: Request) {
    && r.claim in s.claims
    && match r.call
       case Prepares(tx, _, recorded) => w.memo(tx) == r.claim && Suffices(w, tx, recorded)
       case Completes(tx) => PaidOn(s.chain, tx)
       case Abandons(seen, afterAbsence) =>
         ExpiredAt(w, seen, s.truthView) && (afterAbsence ==> Dead(w, s.chain, seen))
       case GivesUp => true
  }

  ghost predicate Invariant(w: World, s: State) {
    && ValidWorld(w) && ChainOrdered(w, s.chain) && s.truthView <= s.chain.height
    && (forall id :: id in s.claims ==> ClaimShape(w, id, s.claims[id]) && ClaimGrounded(w, s, s.claims[id]))
    && (forall k :: k in s.passes ==> PassSound(w, s, s.passes[k]))
    && (forall r :: r in s.requests ==> RequestSound(w, s, r))
    && (forall tx :: tx in s.network ==> Accounted(w, s, tx))
    && (forall tx :: tx in s.chain.landed ==> tx in s.network)
  }

  // ---- one claim changes ----

  /** How a claim may change, everything else staying as it is. */
  ghost predicate ClaimMoves(w: World, s: State, id: Id, c: Claim) {
    && id in s.claims && ClaimShape(w, id, c) && ClaimGrounded(w, s, c)
    && (s.claims[id].signature.Some? && c.signature != s.claims[id].signature ==>
          Dead(w, s.chain, s.claims[id].signature.value))
  }

  lemma AccountedStays(w: World, s: State, id: Id, c: Claim, tx: Tx)
    requires ClaimMoves(w, s, id, c) && Accounted(w, s, tx)
    ensures Accounted(w, WithClaim(s, id, c), tx)
  {
  }

  lemma PassStays(w: World, s: State, id: Id, c: Claim, p: Pass)
    requires ClaimMoves(w, s, id, c) && PassSound(w, s, p)
    ensures PassSound(w, WithClaim(s, id, c), p)
  {
    hide ClaimMoves, Accounted, ExpiredAt, Suffices;
    assert id in s.claims by { Moving(w, s, id, c); }
    if p.row.signature.Some? {
      AccountedStays(w, s, id, c, p.row.signature.value);
    }
    if p.sending.Some? {
      AccountedStays(w, s, id, c, p.sending.value);
    }
  }

  lemma Moving(w: World, s: State, id: Id, c: Claim)
    requires ClaimMoves(w, s, id, c)
    ensures id in s.claims && ClaimShape(w, id, c) && ClaimGrounded(w, s, c)
  {
  }

  lemma RequestStays(w: World, s: State, t: State, r: Request)
    requires RequestSound(w, s, r) && t.chain == s.chain && t.truthView == s.truthView && s.claims.Keys <= t.claims.Keys
    ensures RequestSound(w, t, r)
  {
  }

  lemma GroundsStay(w: World, s: State, t: State)
    requires t.chain == s.chain && t.truthView == s.truthView
    ensures forall c :: ClaimGrounded(w, s, c) ==> ClaimGrounded(w, t, c)
  {
  }

  /** Whatever the ledger does to one claim in this way leaves passes, requests and broadcasts sound. */
  lemma MoveKeeps(w: World, s: State, id: Id, c: Claim)
    requires Invariant(w, s) && ClaimMoves(w, s, id, c)
    ensures Invariant(w, WithClaim(s, id, c))
  {
    var t := WithClaim(s, id, c);
    Moving(w, s, id, c);
    GroundsStay(w, s, t);
    hide ClaimMoves, ClaimShape, ClaimGrounded, Dead, ChainOrdered, PassSound, RequestSound, Accounted;
    forall tx | tx in s.network ensures Accounted(w, t, tx) {
      AccountedStays(w, s, id, c, tx);
    }
    forall k | k in t.passes ensures PassSound(w, t, t.passes[k]) {
      PassStays(w, s, id, c, s.passes[k]);
    }
    forall r | r in t.requests ensures RequestSound(w, t, r) {
      RequestStays(w, s, t, r);
    }
  }

  /** Passes and requests that are sound may come, change and go. */
  lemma PassesKeep(w: World, s: State, t: State)
    requires Invariant(w, s) && t == s.(passes := t.passes, requests := t.requests, leases := t.leases)
    requires forall k :: k in t.passes && !(k in s.passes && t.passes[k] == s.passes[k]) ==>
      PassSound(w, s, t.passes[k])
    requires forall r :: r in t.requests && r !in s.requests ==> RequestSound(w, s, r)
    ensures Invariant(w, t)
  {
    GroundsStay(w, s, t);
    hide ClaimShape, ClaimGrounded, ChainOrdered, Dead;
    forall k | k in t.passes ensures PassSound(w, t, t.passes[k]) {
      assert PassSound(w, s, t.passes[k]);
    }
    forall r | r in t.requests ensures RequestSound(w, t, r) {
      RequestStays(w, s, t, r);
    }
  }

  // ---- the passes' steps ----

  lemma LeaseKeeps(w: World, s: State, pass: Id, worker: Id, id: Id, expiresAt: nat)
    requires Invariant(w, s) && LeaseStep(s, pass, worker, id, expiresAt).Some?
    ensures Invariant(w, LeaseStep(s, pass, worker, id, expiresAt).value)
  {
    var row := Lease(s.claims[id], worker, s.now, expiresAt).value;
    assert ClaimShape(w, id, s.claims[id]) && ClaimGrounded(w, s, s.claims[id]);
    assert ClaimMoves(w, s, id, row);
    MoveKeeps(w, s, id, row);
    var t := LeaseStep(s, pass, worker, id, expiresAt).value;
    var moved := WithClaim(s, id, row);
    assert PassSound(w, moved, t.passes[pass]);
    hide Lease, PassSound, ClaimMoves, Invariant;
    PassesKeep(w, moved, t);
  }

  predicate AsksEnough(w: World, e: PassEvent) {
    e.AskToPrepare? ==> Suffices(w, e.tx, e.recorded)
  }

  lemma AskKeeps(w: World, s: State, pass: Id, tx: Tx, blockhash: string, recorded: nat)
    requires Suffices(w, tx, recorded) && Invariant(w, s) && pass in s.passes
    requires AskStep(w, s, pass, tx, blockhash, recorded).Some?
    ensures Invariant(w, AskStep(w, s, pass, tx, blockhash, recorded).value)
  {
    assert PassSound(w, s, s.passes[pass]);
    PassesKeep(w, s, AskStep(w, s, pass, tx, blockhash, recorded).value);
  }

  // ---- what a look at the chain proves ----

  /** One absence verdict: the truthful origin has passed the recorded height. */
  lemma AbsenceMeansExpired(
    w: World, s: State, tx: Tx, recorded: nat, views: seq<Option<View>>, statusView: nat, heightView: nat)
    requires ValidWorld(w) && |views| == w.origins && heightView <= s.truthView && Suffices(w, tx, recorded)
    requires TruthfulView(views[w.truth], tx, s.chain, statusView, heightView)
    requires Observe(views, recorded) == AbsentOrFailed
    ensures ExpiredAt(w, tx, s.truthView)
  {
    DecisiveIsUnanimous(views, recorded, AbsentOrFailed);
    assert Supports(views[w.truth], AbsentOrFailed, recorded);
  }

  /** Two in a row: a status read where the transaction had expired, and that shows no success, is final. */
  lemma SecondAbsenceMeansDead(
    w: World, s: State, tx: Tx, recorded: nat, views: seq<Option<View>>, statusView: nat, heightView: nat)
    requires ValidWorld(w) && |views| == w.origins && statusView <= heightView <= s.truthView <= s.chain.height
    requires ChainOrdered(w, s.chain) && ExpiredAt(w, tx, statusView)
    requires TruthfulView(views[w.truth], tx, s.chain, statusView, heightView)
    requires Observe(views, recorded) == AbsentOrFailed
    ensures Dead(w, s.chain, tx)
  {
    DecisiveIsUnanimous(views, recorded, AbsentOrFailed);
    assert Supports(views[w.truth], AbsentOrFailed, recorded);
  }

  lemma PaidMeansPaid(
    w: World, s: State, tx: Tx, recorded: nat, views: seq<Option<View>>, statusView: nat, heightView: nat)
    requires ValidWorld(w) && |views| == w.origins
    requires TruthfulView(views[w.truth], tx, s.chain, statusView, heightView)
    requires Observe(views, recorded) == Paid
    ensures PaidOn(s.chain, tx)
  {
    DecisiveIsUnanimous(views, recorded, Paid);
    assert Supports(views[w.truth], Paid, recorded);
  }

  /** A report says the truth when it is sent. */
  lemma ReportIsSound(w: World, s: State, p: Pass, views: seq<Option<View>>, statusView: nat, heightView: nat)
    requires Invariant(w, s) && PassSound(w, s, p) && ChooseStep(p.row) == ObserveFirst && |views| == w.origins
    requires p.rowView <= statusView <= heightView <= s.truthView
    requires TruthfulView(views[w.truth], p.row.signature.value, s.chain, statusView, heightView)
    ensures var tx := p.row.signature.value;
      match Observe(views, p.row.lastValid.value)
      case Inconclusive => true
      case Paid => RequestSound(w, s, Request(p.worker, p.claim, p.lease, Completes(tx)))
      case AbsentOrFailed =>
        RequestSound(w, s, Request(p.worker, p.claim, p.lease, Abandons(tx, p.row.absenceObservedAt.Some?)))
  {
    var tx, recorded := p.row.signature.value, p.row.lastValid.value;
    var verdict := Observe(views, recorded);
    if verdict == Paid {
      PaidMeansPaid(w, s, tx, recorded, views, statusView, heightView);
    } else if verdict == AbsentOrFailed {
      AbsenceMeansExpired(w, s, tx, recorded, views, statusView, heightView);
      if p.row.absenceObservedAt.Some? {
        SecondAbsenceMeansDead(w, s, tx, recorded, views, statusView, heightView);
      }
    }
  }

  lemma LookKeeps(w: World, s: State, pass: Id, views: seq<Option<View>>, statusView: nat, heightView: nat)
    requires Invariant(w, s) && pass in s.passes && LookStep(w, s, pass, views, statusView, heightView).Some?
    ensures Invariant(w, LookStep(w, s, pass, views, statusView, heightView).value)
  {
    var p := s.passes[pass];
    assert PassSound(w, s, p);
    ReportIsSound(w, s, p, views, statusView, heightView);
    hide Invariant, Observe, TruthfulView, RequestSound;
    PassesKeep(w, s, LookStep(w, s, pass, views, statusView, heightView).value);
  }

  lemma BroadcastKeeps(w: World, s: State, pass: Id)
    requires Invariant(w, s) && pass in s.passes && s.passes[pass].sending.Some?
    ensures Invariant(w, s.(network := s.network + {s.passes[pass].sending.value}))
  {
    assert PassSound(w, s, s.passes[pass]);
    var t := s.(network := s.network + {s.passes[pass].sending.value});
    GroundsStay(w, s, t);
    hide ClaimShape, ClaimGrounded, ChainOrdered, Dead;
    forall k | k in t.passes ensures PassSound(w, t, t.passes[k]) {
      assert PassSound(w, s, s.passes[k]);
    }
    forall r | r in t.requests ensures RequestSound(w, t, r) {
      RequestStays(w, s, t, r);
    }
    forall tx | tx in t.network ensures Accounted(w, t, tx) {
      assert Accounted(w, s, tx);
    }
  }

  lemma EndKeeps(w: World, s: State, pass: Id, throws: bool)
    requires Invariant(w, s) && pass in s.passes
    ensures Invariant(w, EndPass(if throws then Asks(s, pass, s.passes[pass], GivesUp) else s, pass))
  {
    assert PassSound(w, s, s.passes[pass]);
    var t := EndPass(if throws then Asks(s, pass, s.passes[pass], GivesUp) else s, pass);
    hide Invariant, PassSound;
    PassesKeep(w, s, t);
  }

  lemma PassStepKeeps(w: World, s: State, pass: Id, e: PassEvent)
    requires Invariant(w, s) && ValidWorld(w) && PassStep(w, s, pass, e).Some? && AsksEnough(w, e)
    ensures Invariant(w, PassStep(w, s, pass, e).value)
  {
    hide Invariant, LeaseStep, AskStep, LookStep, Asks;
    match e {
      case TakeLease(worker, claim, expiresAt) => LeaseKeeps(w, s, pass, worker, claim, expiresAt);
      case AskToPrepare(tx, blockhash, recorded) => AskKeeps(w, s, pass, tx, blockhash, recorded);
      case Broadcast => BroadcastKeeps(w, s, pass);
      case Look(views, statusView, heightView) => LookKeeps(w, s, pass, views, statusView, heightView);
      case Throw => EndKeeps(w, s, pass, true);
      case Crash => EndKeeps(w, s, pass, false);
    }
  }

  // ---- the ledger executes a request ----

  lemma PrepareMoves(w: World, s: State, r: Request)
    requires Invariant(w, s) && RequestSound(w, s, r) && r.call.Prepares?
    ensures var c := Executed(s.claims[r.claim], r, s.now);
      c.Some? ==> ClaimMoves(w, s, r.claim, c.value) && c.value.signature == Some(r.call.tx)
  {
    assert ClaimShape(w, r.claim, s.claims[r.claim]) && ClaimGrounded(w, s, s.claims[r.claim]);
  }

  lemma CompletionMoves(w: World, s: State, r: Request)
    requires Invariant(w, s) && RequestSound(w, s, r) && r.call.Completes?
    ensures var c := Executed(s.claims[r.claim], r, s.now); c.Some? ==> ClaimMoves(w, s, r.claim, c.value)
  {
    assert ClaimShape(w, r.claim, s.claims[r.claim]) && ClaimGrounded(w, s, s.claims[r.claim]);
  }

  /** A noted absence must be of the transaction looked at; dropped evidence must belong to a dead one. */
  lemma AbandonMoves(w: World, s: State, r: Request)
    requires Invariant(w, s) && RequestSound(w, s, r) && r.call.Abandons?
    requires Harmless(EffectOf(s.claims[r.claim], r, s.now))
    ensures var c := Executed(s.claims[r.claim], r, s.now); c.Some? ==> ClaimMoves(w, s, r.claim, c.value)
  {
    assert ClaimShape(w, r.claim, s.claims[r.claim]) && ClaimGrounded(w, s, s.claims[r.claim]);
  }

  lemma GiveUpMoves(w: World, s: State, r: Request)
    requires Invariant(w, s) && RequestSound(w, s, r) && r.call.GivesUp?
    ensures var c := Executed(s.claims[r.claim], r, s.now); c.Some? ==> ClaimMoves(w, s, r.claim, c.value)
  {
    assert ClaimShape(w, r.claim, s.claims[r.claim]) && ClaimGrounded(w, s, s.claims[r.claim]);
  }

  lemma ExecutionMoves(w: World, s: State, r: Request)
    requires Invariant(w, s) && RequestSound(w, s, r) && Harmless(EffectOf(s.claims[r.claim], r, s.now))
    ensures var c := Executed(s.claims[r.claim], r, s.now); c.Some? ==> ClaimMoves(w, s, r.claim, c.value)
  {
    hide Invariant, RequestSound, Executed, EffectOf, Harmless, ClaimMoves;
    match r.call {
      case Prepares(_, _, _) => PrepareMoves(w, s, r);
      case Completes(_) => CompletionMoves(w, s, r);
      case Abandons(_, _) => AbandonMoves(w, s, r);
      case GivesUp => GiveUpMoves(w, s, r);
    }
  }

  /** An answer carries the row the ledger has just written. */
  lemma AnswerIsSound(w: World, s: State, id: Id, c: Claim, p: Pass, tx: Tx)
    requires Invariant(w, s) && id in s.claims && s.claims[id] == c && c.signature == Some(tx) && p.claim == id
    ensures PassSound(w, s, p.(row := c, rowView := s.truthView, sending := Some(tx)))
  {
    assert ClaimShape(w, id, c) && ClaimGrounded(w, s, c);
  }

  lemma ExecuteKeeps(w: World, s: State, r: Request, answered: Option<Id>)
    requires Invariant(w, s) && ExecuteStep(s, r, answered).Some?
    requires Harmless(EffectOf(s.claims[r.claim], r, s.now))
    ensures Invariant(w, ExecuteStep(s, r, answered).value)
  {
    var c := Executed(s.claims[r.claim], r, s.now);
    assert RequestSound(w, s, r);
    hide Invariant, RequestSound, Executed, EffectOf, ClaimMoves, PassSound;
    ExecutionMoves(w, s, r);
    if c.Some? {
      MoveKeeps(w, s, r.claim, c.value);
      if answered.Some? {
        var moved := WithClaim(s, r.claim, c.value);
        PrepareMoves(w, s, r);
        AnswerIsSound(w, moved, r.claim, c.value, s.passes[answered.value], r.call.tx);
        PassesKeep(w, moved, ExecuteStep(s, r, answered).value);
      }
    }
  }

  // ---- the chain's steps ----

  ghost predicate Grows(w: World, c: Chain, d: Chain) {
    && c.height <= d.height
    && (forall tx :: tx in c.landed ==> tx in d.landed && d.landed[tx] == c.landed[tx])
    && (forall tx :: tx in d.landed && tx !in c.landed ==> c.height < w.lastValid(tx))
  }

  /** Dead once is dead for ever. */
  lemma DeadStays(w: World, c: Chain, d: Chain, tx: Tx)
    requires Grows(w, c, d) && Dead(w, c, tx)
    ensures Dead(w, d, tx)
  {
  }

  lemma ChainStepGrows(w: World, s: State, e: ChainEvent)
    requires ChainOrdered(w, s.chain) && s.truthView <= s.chain.height && ChainStep(w, s, e).Some?
    ensures var t := ChainStep(w, s, e).value;
      && Grows(w, s.chain, t.chain) && ChainOrdered(w, t.chain)
      && s.truthView <= t.truthView <= t.chain.height
      && t.claims == s.claims && t.passes == s.passes && t.requests == s.requests && t.network == s.network
      && (forall tx :: tx in t.chain.landed && tx !in s.chain.landed ==> tx in s.network)
  {
  }

  lemma RequestGrows(w: World, s: State, t: State, r: Request)
    requires RequestSound(w, s, r) && Grows(w, s.chain, t.chain) && s.truthView <= t.truthView && t.claims == s.claims
    ensures RequestSound(w, t, r)
  {
    if r.call.Abandons? && r.call.afterAbsence {
      DeadStays(w, s.chain, t.chain, r.call.seen);
    }
  }

  lemma GrowthKeeps(w: World, s: State, t: State)
    requires Invariant(w, s) && Grows(w, s.chain, t.chain) && ChainOrdered(w, t.chain)
    requires s.truthView <= t.truthView <= t.chain.height
    requires t.claims == s.claims && t.passes == s.passes && t.requests == s.requests && t.network == s.network
    requires forall tx :: tx in t.chain.landed && tx !in s.chain.landed ==> tx in s.network
    ensures Invariant(w, t)
  {
    forall id | id in t.claims ensures ClaimShape(w, id, t.claims[id]) && ClaimGrounded(w, t, t.claims[id]) {
      assert ClaimGrounded(w, s, s.claims[id]);
    }
    hide ClaimShape, ClaimGrounded, ChainOrdered, RequestSound;
    forall tx | Accounted(w, s, tx) ensures Accounted(w, t, tx) {
      if Dead(w, s.chain, tx) {
        DeadStays(w, s.chain, t.chain, tx);
      }
    }
    forall k | k in t.passes ensures PassSound(w, t, t.passes[k]) {
      assert PassSound(w, s, s.passes[k]);
    }
    forall r | r in t.requests ensures RequestSound(w, t, r) {
      RequestGrows(w, s, t, r);
    }
  }

  lemma NewClaimKeeps(w: World, s: State, id: Id)
    requires Invariant(w, s) && id !in s.claims
    ensures Invariant(w, WithClaim(s, id, FreshClaim))
  {
    var t := WithClaim(s, id, FreshClaim);
    GroundsStay(w, s, t);
    assert ClaimShape(w, id, FreshClaim) && ClaimGrounded(w, t, FreshClaim);
    hide ClaimShape, ClaimGrounded, ChainOrdered, Dead, Accounted, PassSound, RequestSound;
    forall k | k in t.passes ensures PassSound(w, t, t.passes[k]) {
      MoreClaimsPass(w, s, id, s.passes[k]);
    }
    forall r | r in t.requests ensures RequestSound(w, t, r) {
      RequestStays(w, s, t, r);
    }
    forall tx | tx in t.network ensures Accounted(w, t, tx) {
      MoreClaims(w, s, id, tx);
    }
  }

  lemma MoreClaims(w: World, s: State, id: Id, tx: Tx)
    requires id !in s.claims && Accounted(w, s, tx)
    ensures Accounted(w, WithClaim(s, id, FreshClaim), tx)
  {
  }

  lemma MoreClaimsPass(w: World, s: State, id: Id, p: Pass)
    requires id !in s.claims && PassSound(w, s, p)
    ensures PassSound(w, WithClaim(s, id, FreshClaim), p)
  {
  }

  // ---- every step, every run ----

  predicate EventAsksEnough(w: World, e: Event) {
    e.OnPass? ==> AsksEnough(w, e.passEvent)
  }

  /** Every last valid height that a run asks to record falls short by one block at most. */
  ghost predicate HeightsSuffice(w: World, events: seq<Event>) {
    forall e :: e in events ==> EventAsksEnough(w, e)
  }

  /** Every abandoning call of the run is harmless where it is executed. */
  ghost predicate Careful(w: World, events: seq<Event>)
    requires ValidWorld(w)
  {
    Effects(w, events, Harmless)
  }

  lemma StepKeeps(w: World, s: State, e: Event, t: State)
    requires Invariant(w, s) && ValidWorld(w) && Step(w, s, e) == Some(t)
    requires EventAsksEnough(w, e) && Harmless(EventEffect(s, e))
    ensures Invariant(w, t)
  {
    hide Invariant, PassStep, ChainStep, ExecuteStep, EffectOf, Harmless;
    match e {
      case OnPass(pass, passEvent) => PassStepKeeps(w, s, pass, passEvent);
      case Executes(request, answered) =>
        assert request.claim in s.claims by { ExecutedClaim(s, request, answered); }
        ExecuteKeeps(w, s, request, answered);
      case OnChain(chainEvent) => ChainKeeps(w, s, chainEvent);
      case NewClaim(claim) => NewClaimKeeps(w, s, claim);
    }
  }

  lemma ExecutedClaim(s: State, r: Request, answered: Option<Id>)
    requires ExecuteStep(s, r, answered).Some?
    ensures r.claim in s.claims
  {
  }

  lemma ChainKeeps(w: World, s: State, e: ChainEvent)
    requires Invariant(w, s) && ChainStep(w, s, e).Some?
    ensures Invariant(w, ChainStep(w, s, e).value)
  {
    ChainStepGrows(w, s, e);
    hide Invariant, ChainStep, Grows;
    GrowthKeeps(w, s, ChainStep(w, s, e).value);
  }

  lemma {:induction false} RunKeeps(w: World, events: seq<Event>)
    requires ValidWorld(w) && Run(w, events).Some? && HeightsSuffice(w, events) && Careful(w, events)
    ensures Invariant(w, Run(w, events).value)
  {
    if |events| > 0 {
      var before := events[..|events| - 1];
      assert Run(w, before).Some? && Step(w, Run(w, before).value, events[|events| - 1]) == Run(w, events);
      assert HeightsSuffice(w, before) && events[|events| - 1] in events;
      hide Run, Step, Invariant, EventEffect;
      RunKeeps(w, before);
      StepKeeps(w, Run(w, before).value, events[|events| - 1], Run(w, events).value);
    }
  }

  // ---- what it means for the money ----

  /** No claim is paid twice: its transactions that succeeded on chain, in any such run, are one. */
  lemma NoClaimPaidTwice(w: World, events: seq<Event>, a: Tx, b: Tx)
    requires ValidWorld(w) && Run(w, events).Some? && HeightsSuffice(w, events) && Careful(w, events)
    requires w.memo(a) == w.memo(b)
    requires PaidOn(Run(w, events).value.chain, a) && PaidOn(Run(w, events).value.chain, b)
    ensures a == b
  {
    hide Run, Careful;
    RunKeeps(w, events);
    var s := Run(w, events).value;
    assert Accounted(w, s, a) && Accounted(w, s, b);
  }

  /** A settled claim was paid, by the transaction it names. */
  lemma SettledIsPaid(w: World, events: seq<Event>, id: Id)
    requires ValidWorld(w) && Run(w, events).Some? && HeightsSuffice(w, events) && Careful(w, events)
    requires id in Run(w, events).value.claims && Run(w, events).value.claims[id].status == Settled
    ensures var s := Run(w, events).value;
      && s.claims[id].signature.Some? && w.memo(s.claims[id].signature.value) == id
      && PaidOn(s.chain, s.claims[id].signature.value)
  {
    hide Run, Careful;
    RunKeeps(w, events);
    var s := Run(w, events).value;
    assert ClaimShape(w, id, s.claims[id]) && ClaimGrounded(w, s, s.claims[id]);
  }

  /** The ledger takes a new transaction only for a claim without any, whose earlier ones are all dead. */
  lemma NewTransactionIsSafe(w: World, events: seq<Event>, r: Request, tx: Tx)
    requires ValidWorld(w) && Run(w, events).Some? && HeightsSuffice(w, events) && Careful(w, events)
    requires var s := Run(w, events).value;
      && r.call.Prepares? && r.claim in s.claims && Executed(s.claims[r.claim], r, s.now).Some?
      && s.claims[r.claim].signature != Some(r.call.tx) && w.memo(tx) == r.claim && tx in s.network
    ensures var s := Run(w, events).value;
      NoEvidence(s.claims[r.claim]) && Dead(w, s.chain, tx)
  {
    hide Run, Careful;
    RunKeeps(w, events);
    var s := Run(w, events).value;
    assert ClaimShape(w, r.claim, s.claims[r.claim]);
    assert Accounted(w, s, tx);
  }

  /**
   * Recovery completes: a prepared claim reported absent twice, two minutes
   * apart, under two leases, loses its evidence and can be leased for a new one.
   */
  lemma AbandonedTwiceIsFreed(
    c: Claim, worker: Id, other: Id, first: nat, leasedAt: nat, second: nat, expiresAt: nat)
    requires c.status == Prepared && WholeEvidence(c) && c.absenceObservedAt.None? && ActiveLease(c, worker, first)
    requires c.preparedAt <= first <= leasedAt <= second < expiresAt && first + ABSENCE_CONFIRMATION_MS <= second
    requires 0 < c.attempts < MAX_ATTEMPTS
    ensures FailClaim(c, worker, true, first).Some?
    ensures Lease(FailClaim(c, worker, true, first).value, other, leasedAt, expiresAt).Some?
    ensures var again := Lease(FailClaim(c, worker, true, first).value, other, leasedAt, expiresAt).value;
      var freed := FailClaim(again, other, true, second);
      && freed.Some? && NoEvidence(freed.value) && freed.value.status == Failed
      && Lease(freed.value, worker, second, expiresAt).Some?
      && ChooseStep(Lease(freed.value, worker, second, expiresAt).value) == BuildNew
  {
  }
}
