/**
 * One run of the reconciliation worker over the attempts it listed
 * (processResearchPaymentAttempts and confirmAbsenceOrRelease in
 * agent-orchestrator/src/pay-sh-reconciler.ts): which ledger calls it makes for
 * each attempt, that no attempt's trouble reaches another, and that its calls
 * are the steps of the protocol model.
 */
module ReconcilerRun {
  import opened Wrappers
  import opened Reconciler
  import opened Ledger
  import opened Protocol

  datatype LedgerCall =
    | ReleaseCall(attempt: Id, expected: AttemptStatus)
    | DeferCall(attempt: Id, absenceObserved: bool)
    | SettleCall(attempt: Id, signature: Signature)

  /**
   * What the run learns about one attempt. `valid` is the row check, `exact` the
   * quoted-transfer check, `lifetime` whether the recorded blockhash is the
   * message's own (None when reading it throws).
   */
  datatype Evidence = Evidence(
    valid: bool, exact: bool, lifetime: Option<bool>, scans: seq<ScanResult>, blockhashViews: seq<Option<bool>>)

  datatype Listed = Listed(id: Id, row: Attempt, evidence: Evidence)

  /** A call about to be made, and whether the attempt is reported as degraded after it. */
  datatype Intent = Intent(call: LedgerCall, degraded: bool)

  /** None stands for an exception before any ledger call. */
  function Intended(a: Listed): Option<Intent> {
    var e := a.evidence;
    if !e.valid then None
    else if a.row.status == Claimed then Some(Intent(ReleaseCall(a.id, Claimed), false))
    else if a.row.message.None? then Some(Intent(DeferCall(a.id, false), true))
    else if !e.exact then Some(Intent(DeferCall(a.id, false), true))
    else if e.lifetime.None? then None
    else if !e.lifetime.value then Some(Intent(DeferCall(a.id, false), true))
    else
      match AfterScans(e.scans)
      case Settle(signature) => Some(Intent(SettleCall(a.id, signature), false))
      case Defer => Some(Intent(DeferCall(a.id, false), true))
      case AskBlockhash =>
        match AfterBlockhash(e.blockhashViews, a.row.absenceObservedAt.Some?)
        case KeepFence =>
          Some(Intent(DeferCall(a.id, false),
                      |e.blockhashViews| < 2 || exists i :: 0 <= i < |e.blockhashViews| && e.blockhashViews[i].None?))
        case ObserveAbsence => Some(Intent(DeferCall(a.id, true), false))
        case Release => Some(Intent(ReleaseCall(a.id, a.row.status), false))
  }

  /** A call and whether the ledger accepted it. */
  datatype Made = Made(call: LedgerCall, ok: bool)

  datatype Handled = Handled(calls: seq<Made>, degraded: bool, failed: bool)

  /** The calls for one attempt, `answers` saying how the ledger answers the next call and the one after it. */
  function HandledOne(a: Listed, first: bool, second: bool): Handled {
    var intent := Intended(a);
    var fallback := DeferCall(a.id, false);
    if intent.None? then Handled([Made(fallback, first)], first, !first)
    else if first then Handled([Made(intent.value.call, true)], intent.value.degraded, false)
    else Handled([Made(intent.value.call, false), Made(fallback, second)], second, !second)
  }

  /** The k-th ledger call of the run is answered by `answers(k)`. */
  function HandledAll(attempts: seq<Listed>, answers: nat -> bool): (r: seq<Handled>)
    ensures |r| == |attempts|
  {
    if |attempts| == 0 then []
    else
      var earlier := HandledAll(attempts[..|attempts| - 1], answers);
      var k := CallCount(earlier);
      earlier + [HandledOne(attempts[|attempts| - 1], answers(k), answers(k + 1))]
  }

  function CallCount(handled: seq<Handled>): nat {
    |AllCalls(handled)|
  }

  function AllCalls(handled: seq<Handled>): seq<Made> {
    if |handled| == 0 then [] else AllCalls(handled[..|handled| - 1]) + handled[|handled| - 1].calls
  }

  /** Some attempt ended with even its deferral refused. */
  predicate AnyFailed(handled: seq<Handled>) {
    exists i :: 0 <= i < |handled| && handled[i].failed
  }

  function Degraded(attempts: seq<Listed>, handled: seq<Handled>): set<Id>
    requires |attempts| == |handled|
  {
    if |attempts| == 0 then {}
    else
      var n := |attempts| - 1;
      Degraded(attempts[..n], handled[..n]) + if handled[n].degraded then {attempts[n].id} else {}
  }

  /** The loop of the original: its calls in order, the degraded attempts, and whether it throws at the end. */
  method ProcessAttempts(attempts: seq<Listed>, answers: nat -> bool)
    returns (calls: seq<Made>, degradedAttempts: set<Id>, throws: bool)
    ensures calls == AllCalls(HandledAll(attempts, answers))
    ensures degradedAttempts == Degraded(attempts, HandledAll(attempts, answers))
    ensures throws <==> AnyFailed(HandledAll(attempts, answers))
  {
    calls, degradedAttempts, throws := [], {}, false;
    ghost var handled: seq<Handled> := [];
    var i := 0;
    NothingHandled(attempts, answers);
    hide HandledAll, HandledOne, AllCalls, Degraded, CallCount, AnyFailed;
    while i < |attempts|
      invariant 0 <= i <= |attempts|
      invariant handled == HandledAll(attempts[..i], answers)
      invariant calls == AllCalls(handled)
      invariant degradedAttempts == Degraded(attempts[..i], handled)
      invariant throws <==> AnyFailed(handled)
    {
      CountsCalls(handled);
      var one := HandleAttempt(attempts[i], answers, |calls|);
      NextHandled(attempts, i, answers, handled, one);
      calls := calls + one.calls;
      if one.degraded {
        degradedAttempts := degradedAttempts + {attempts[i].id};
      }
      throws := throws || one.failed;
      handled := handled + [one];
      i := i + 1;
    }
    assert attempts[..i] == attempts;
  }

  /** The body of the loop: its `try`, and the deferral in its `catch`. */
  method HandleAttempt(attempt: Listed, answers: nat -> bool, made: nat) returns (one: Handled)
    ensures one == HandledOne(attempt, answers(made), answers(made + 1))
  {
    hide Intended;
    var calls: seq<Made>, degraded, caught, k := [], false, true, made;
    var intent := Intended(attempt);
    if intent.Some? {
      var ok := answers(k);
      calls, k := calls + [Made(intent.value.call, ok)], k + 1;
      if ok {
        caught, degraded := false, intent.value.degraded;
      }
    }
    var failed := false;
    if caught {
      var ok := answers(k);
      calls := calls + [Made(DeferCall(attempt.id, false), ok)];
      degraded, failed := ok, !ok;
    }
    return Handled(calls, degraded, failed);
  }

  lemma NothingHandled(attempts: seq<Listed>, answers: nat -> bool)
    ensures HandledAll(attempts[..0], answers) == [] && AllCalls([]) == []
    ensures !AnyFailed([]) && Degraded(attempts[..0], []) == {}
  {
  }

  lemma CountsCalls(handled: seq<Handled>)
    ensures CallCount(handled) == |AllCalls(handled)|
  {
  }

  lemma NextHandled(attempts: seq<Listed>, i: nat, answers: nat -> bool, handled: seq<Handled>, one: Handled)
    requires i < |attempts| && handled == HandledAll(attempts[..i], answers)
    requires one == HandledOne(attempts[i], answers(CallCount(handled)), answers(CallCount(handled) + 1))
    ensures HandledAll(attempts[..i + 1], answers) == handled + [one]
    ensures AllCalls(handled + [one]) == AllCalls(handled) + one.calls
    ensures AnyFailed(handled + [one]) <==> AnyFailed(handled) || one.failed
    ensures Degraded(attempts[..i + 1], handled + [one])
      == Degraded(attempts[..i], handled) + if one.degraded then {attempts[i].id} else {}
  {
    assert HandledAll(attempts[..i + 1], answers) == handled + [one] by {
      hide HandledOne, AllCalls, Degraded, AnyFailed, CallCount;
      assert attempts[..i + 1][..i] == attempts[..i];
    }
    hide *;
    NextCalls(handled, one);
    NextFailed(handled, one);
    NextDegraded(attempts, i, handled, one);
  }

  lemma NextCalls(handled: seq<Handled>, one: Handled)
    ensures AllCalls(handled + [one]) == AllCalls(handled) + one.calls
  {
    assert (handled + [one])[..|handled|] == handled;
  }

  lemma NextDegraded(attempts: seq<Listed>, i: nat, handled: seq<Handled>, one: Handled)
    requires i < |attempts| && |handled| == i
    ensures Degraded(attempts[..i + 1], handled + [one])
      == Degraded(attempts[..i], handled) + if one.degraded then {attempts[i].id} else {}
  {
    assert attempts[..i + 1][..i] == attempts[..i];
    assert (handled + [one])[..i] == handled;
  }

  lemma NextFailed(handled: seq<Handled>, one: Handled)
    ensures AnyFailed(handled + [one]) <==> AnyFailed(handled) || one.failed
  {
    var longer := handled + [one];
    assert longer[|handled|] == one && forall j :: 0 <= j < |handled| ==> longer[j] == handled[j];
  }

  // ---- what the calls are worth ----

  /** A release is asked for on a deadline nobody prepared for, or on the second complete, unanimous absence. */
  predicate ReleaseJustified(a: Listed) {
    && a.evidence.valid
    && (a.row.status == Claimed
        || (&& a.row.message.Some? && a.evidence.exact && a.evidence.lifetime == Some(true)
            && a.row.absenceObservedAt.Some?
            && |a.evidence.blockhashViews| >= 2
            && (forall v :: v in a.evidence.blockhashViews ==> v == Some(false))
            && (forall r :: r in a.evidence.scans ==> r.Absent? || r.FoundFailed?)))
  }

  lemma ReleaseExactlyWhenJustified(a: Listed)
    ensures Intended(a).Some? && Intended(a).value.call.ReleaseCall? <==> ReleaseJustified(a)
    ensures ReleaseJustified(a) ==> Intended(a).value.call == ReleaseCall(a.id, a.row.status)
  {
    var e := a.evidence;
    if a.row.status != Claimed && ReleaseJustified(a) {
      AskedWhenNothingFound(e.scans);
      assert forall i :: 0 <= i < |e.blockhashViews| ==> e.blockhashViews[i] in e.blockhashViews;
    }
    if Intended(a).Some? && Intended(a).value.call.ReleaseCall? && a.row.status != Claimed {
      NothingFoundWhenAsked(e.scans);
    }
  }

  lemma AskedWhenNothingFound(scans: seq<ScanResult>)
    requires forall r :: r in scans ==> r.Absent? || r.FoundFailed?
    ensures AfterScans(scans) == AskBlockhash
  {
    assert forall i :: 0 <= i < |scans| ==> scans[i] in scans;
    assert |scans| > 0 ==> !scans[0].FoundSettled?;
  }

  lemma NothingFoundWhenAsked(scans: seq<ScanResult>)
    requires AfterScans(scans) == AskBlockhash
    ensures forall r :: r in scans ==> r.Absent? || r.FoundFailed?
  {
  }

  /** Every listed attempt gets its own answer, a second call being only ever the harmless deferral. */
  lemma EveryAttemptIsAnswered(a: Listed, first: bool, second: bool)
    ensures var h := HandledOne(a, first, second);
      && 1 <= |h.calls| <= 2 && (forall c :: c in h.calls ==> c.call.attempt == a.id)
      && (|h.calls| == 2 ==> !h.calls[0].ok && h.calls[1].call == DeferCall(a.id, false))
      && (h.failed <==> !h.calls[|h.calls| - 1].ok)
  {
  }

  /** Nothing about one attempt depends on the others: only how the ledger answers its calls. */
  lemma {:induction false} AttemptsAreIndependent(attempts: seq<Listed>, answers: nat -> bool, i: nat)
    requires i < |attempts|
    ensures exists first, second :: HandledAll(attempts, answers)[i] == HandledOne(attempts[i], first, second)
  {
    if i < |attempts| - 1 {
      AttemptsAreIndependent(attempts[..|attempts| - 1], answers, i);
    } else {
      var k := CallCount(HandledAll(attempts[..|attempts| - 1], answers));
      assert HandledAll(attempts, answers)[i] == HandledOne(attempts[i], answers(k), answers(k + 1));
    }
  }

  // ---- each answer from the evidence alone ----

  /** The bytes are there, pay exactly the quote and carry the recorded blockhash: the chain is worth asking. */
  predicate Checkable(a: Listed) {
    && a.evidence.valid && a.row.status != Claimed && a.row.message.Some?
    && a.evidence.exact && a.evidence.lifetime == Some(true)
  }

  predicate Settled(a: Listed, signature: Signature) {
    && Checkable(a) && |a.evidence.scans| >= 2
    && forall r :: r in a.evidence.scans ==> r == FoundSettled(signature)
  }

  predicate NothingFound(a: Listed) {
    Checkable(a) && forall r :: r in a.evidence.scans ==> r.Absent? || r.FoundFailed?
  }

  predicate AllExpired(a: Listed) {
    |a.evidence.blockhashViews| >= 2 && forall v :: v in a.evidence.blockhashViews ==> v == Some(false)
  }

  lemma ScansDecide(scans: seq<ScanResult>)
    ensures forall s :: AfterScans(scans) == Settle(s) <==>
      |scans| >= 2 && forall r :: r in scans ==> r == FoundSettled(s)
    ensures AfterScans(scans) == AskBlockhash <==> forall r :: r in scans ==> r.Absent? || r.FoundFailed?
  {
    if forall r :: r in scans ==> r.Absent? || r.FoundFailed? {
      AskedWhenNothingFound(scans);
    }
    assert forall i :: 0 <= i < |scans| ==> scans[i] in scans;
  }

  lemma ViewsDecide(views: seq<Option<bool>>, before: bool)
    ensures AfterBlockhash(views, before) != KeepFence
      <==> |views| >= 2 && forall v :: v in views ==> v == Some(false)
    ensures AfterBlockhash(views, before) != KeepFence ==>
      AfterBlockhash(views, before) == if before then Release else ObserveAbsence
  {
    assert forall i :: 0 <= i < |views| ==> views[i] in views;
  }

  /** A settlement is asked for exactly on checkable bytes that two origins or more all show settled alike. */
  lemma SettlementExactly(a: Listed, signature: Signature)
    ensures (Intended(a).Some? && Intended(a).value.call == SettleCall(a.id, signature)) <==> Settled(a, signature)
    ensures Intended(a).Some? && Intended(a).value.call.SettleCall? ==> Settled(a, Intended(a).value.call.signature)
  {
    var scans := a.evidence.scans;
    ScansDecide(scans);
    assert AfterScans(scans) == Settle(signature)
      <==> |scans| >= 2 && forall r :: r in scans ==> r == FoundSettled(signature);
    hide AfterScans, AfterBlockhash;
  }

  /** An absence is noted exactly on the first complete and unanimous one with expired blockhash. */
  lemma AbsenceExactly(a: Listed)
    ensures (Intended(a).Some? && Intended(a).value.call == DeferCall(a.id, true))
      <==> NothingFound(a) && AllExpired(a) && a.row.absenceObservedAt.None?
  {
    ScansDecide(a.evidence.scans);
    ViewsDecide(a.evidence.blockhashViews, a.row.absenceObservedAt.Some?);
    hide AfterScans, AfterBlockhash;
  }

  /** Why a pass that was answered is still reported as degraded. */
  ghost predicate Doubtful(a: Listed) {
    && a.evidence.valid && a.row.status != Claimed
    && (|| a.row.message.None?
        || !a.evidence.exact
        || a.evidence.lifetime == Some(false)
        || (Checkable(a) && (forall s :: !Settled(a, s)) && !NothingFound(a))
        || (NothingFound(a) && (|a.evidence.blockhashViews| < 2 || None in a.evidence.blockhashViews)))
  }

  lemma DegradedExactly(a: Listed)
    ensures Intended(a).Some? && Intended(a).value.degraded <==> Doubtful(a)
    ensures Doubtful(a) ==> Intended(a).value.call == DeferCall(a.id, false)
  {
    ScansDecide(a.evidence.scans);
    ViewsDecide(a.evidence.blockhashViews, a.row.absenceObservedAt.Some?);
    var views := a.evidence.blockhashViews;
    assert None in views <==> exists i :: 0 <= i < |views| && views[i].None?;
    hide AfterScans, AfterBlockhash;
    if Checkable(a) && AfterScans(a.evidence.scans).Settle? {
      assert Settled(a, AfterScans(a.evidence.scans).signature);
    }
  }

  /** Exactly which attempts end in the catch block before any call. */
  lemma ThrowsExactly(a: Listed)
    ensures Intended(a).None? <==>
      || !a.evidence.valid
      || (a.row.status != Claimed && a.row.message.Some? && a.evidence.exact && a.evidence.lifetime.None?)
  {
    hide AfterScans, AfterBlockhash;
  }

  /** The first call is the intended one or the deferral; the attempt is degraded for its intent or its fallback. */
  lemma FirstCallExactly(a: Listed, first: bool, second: bool)
    ensures var h := HandledOne(a, first, second);
      && h.calls[0] == Made(if Intended(a).Some? then Intended(a).value.call else DeferCall(a.id, false), first)
      && (|h.calls| == 2 <==> Intended(a).Some? && !first)
      && (|h.calls| == 2 ==> h.calls[1].ok == second)
      && (h.degraded <==>
            if Intended(a).Some? && first then Intended(a).value.degraded
            else h.calls[|h.calls| - 1].ok)
  {
  }

  lemma LastOfRun(attempts: seq<Listed>, answers: nat -> bool)
    requires |attempts| > 0
    ensures var earlier := HandledAll(attempts[..|attempts| - 1], answers);
      var n := |AllCalls(earlier)|;
      var one := HandledOne(attempts[|attempts| - 1], answers(n), answers(n + 1));
      AllCalls(HandledAll(attempts, answers)) == AllCalls(earlier) + one.calls
  {
    hide AllCalls, HandledOne;
    var earlier := HandledAll(attempts[..|attempts| - 1], answers);
    var n := CallCount(earlier);
    NextCalls(earlier, HandledOne(attempts[|attempts| - 1], answers(n), answers(n + 1)));
  }

  /** The k-th call of the run meets the ledger's k-th answer. */
  lemma {:induction false} CallsMeetTheirAnswers(attempts: seq<Listed>, answers: nat -> bool, k: nat)
    requires k < |AllCalls(HandledAll(attempts, answers))|
    ensures AllCalls(HandledAll(attempts, answers))[k].ok == answers(k)
  {
    hide Intended, HandledOne, AllCalls;
    if |attempts| > 0 {
      LastOfRun(attempts, answers);
      var n := |AllCalls(HandledAll(attempts[..|attempts| - 1], answers))|;
      FirstCallExactly(attempts[|attempts| - 1], answers(n), answers(n + 1));
      EveryAttemptIsAnswered(attempts[|attempts| - 1], answers(n), answers(n + 1));
      if k < n {
        CallsMeetTheirAnswers(attempts[..|attempts| - 1], answers, k);
      }
    } else {
      assert HandledAll(attempts, answers) == [];
      NothingHandled(attempts, answers);
    }
  }

  /** An attempt is reported exactly when it was handled as degraded. */
  lemma {:induction false} DegradedAre(attempts: seq<Listed>, handled: seq<Handled>, id: Id)
    requires |attempts| == |handled|
    ensures id in Degraded(attempts, handled)
      <==> exists i :: 0 <= i < |attempts| && attempts[i].id == id && handled[i].degraded
  {
    if |attempts| > 0 {
      var n := |attempts| - 1;
      DegradedAre(attempts[..n], handled[..n], id);
      assert forall i :: 0 <= i < n ==> attempts[..n][i] == attempts[i] && handled[..n][i] == handled[i];
    }
  }

  function Perform(l: Ledger, call: LedgerCall, now: nat): Result<Ledger, Refusal> {
    match call
    case ReleaseCall(attempt, expected) => ReleaseAttempt(l, attempt, expected, now)
    case DeferCall(attempt, absenceObserved) => DeferAttempt(l, attempt, absenceObserved, now)
    case SettleCall(attempt, signature) => SettleAttempt(l, attempt, signature)
  }

  /** How far the run got with an attempt before it called the ledger. */
  function PhaseOf(w: World, a: Listed): Phase {
    if !Scannable(w, a.row) then Phase.Listed
    else if AfterScans(a.evidence.scans) != AskBlockhash then Scanned(a.evidence.scans)
    else Checked(a.evidence.scans, a.evidence.blockhashViews)
  }

  /** The intended call does to the ledger what the protocol's pass does in that phase. */
  lemma CallsAreProtocolSteps(w: World, l: Ledger, a: Listed, listView: nat, now: nat)
    requires a.evidence.valid && a.evidence.exact
    requires a.row.status != Claimed && a.row.message.Some? ==>
      a.evidence.lifetime == Some(w.token(a.row.message.value) == a.row.blockhash)
    ensures Intended(a).Some?
    ensures var p := Pass(a.id, a.row, listView, PhaseOf(w, a));
      Decided(w, p) && Perform(l, Intended(a).value.call, now) == Act(w, l, p, now)
  {
    hide ReleaseAttempt, DeferAttempt, SettleAttempt;
  }
}
