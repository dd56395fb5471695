/**
 * The in-process payment fences of the gateway
 * (VerifiedPaymentAttemptTracker and SettlementReplayGuard in
 * payment-gateway/src/payment-routing.ts): two maps that stay each other's
 * inverse, and a map of retention deadlines.
 */
module PaymentRouting {
  import opened Wrappers

  type Id = string

  const ATTEMPT_RETENTION_MS: nat := 86_400_000
  const SETTLEMENT_RETENTION_MS: nat := 86_400_000

  /** `key` is the canonical key of the payment route's identity. */
  datatype Entry<Quote> = Entry(attemptId: Id, key: Id, quote: Quote, retainedUntil: nat)

  datatype Maps<Quote> = Maps(byAttempt: map<Id, Entry<Quote>>, attemptByIdentity: map<Id, Id>)

  // ---- what each operation does to the two maps ----

  predicate CanRemember<Quote>(m: Maps<Quote>, attemptId: Id, key: Id) {
    attemptId !in m.byAttempt && key !in m.attemptByIdentity
  }

  function Remembered<Quote>(m: Maps<Quote>, attemptId: Id, key: Id, quote: Quote, now: nat): Maps<Quote> {
    Maps(m.byAttempt[attemptId := Entry(attemptId, key, quote, now + ATTEMPT_RETENTION_MS)],
         m.attemptByIdentity[key := attemptId])
  }

  function Forgotten<Quote>(m: Maps<Quote>, attemptId: Id): Maps<Quote> {
    if attemptId !in m.byAttempt then m
    else Maps(m.byAttempt - {attemptId}, m.attemptByIdentity - {m.byAttempt[attemptId].key})
  }

  /** Exactly the entries still retained, and the identities that point to them. */
  function Pruned<Quote>(m: Maps<Quote>, now: nat): Maps<Quote> {
    Maps(map a | a in m.byAttempt && m.byAttempt[a].retainedUntil > now :: m.byAttempt[a],
         map k | k in m.attemptByIdentity && m.attemptByIdentity[k] in m.byAttempt
                 && m.byAttempt[m.attemptByIdentity[k]].retainedUntil > now :: m.attemptByIdentity[k])
  }

  ghost predicate Inverse<Quote>(m: Maps<Quote>) {
    && (forall a :: a in m.byAttempt ==>
          && m.byAttempt[a].attemptId == a
          && m.byAttempt[a].key in m.attemptByIdentity && m.attemptByIdentity[m.byAttempt[a].key] == a)
    && (forall k :: k in m.attemptByIdentity ==>
          m.attemptByIdentity[k] in m.byAttempt && m.byAttempt[m.attemptByIdentity[k]].key == k)
  }

  datatype Operation<Quote> =
    | Remember(attemptId: Id, key: Id, quote: Quote, now: nat)
    | Forget(attemptId: Id)
    | Prune(now: nat)

  /** A refused `remember` changes nothing. */
  function Apply<Quote>(m: Maps<Quote>, op: Operation<Quote>): Maps<Quote> {
    match op
    case Remember(attemptId, key, quote, now) =>
      if CanRemember(m, attemptId, key) then Remembered(m, attemptId, key, quote, now) else m
    case Forget(attemptId) => Forgotten(m, attemptId)
    case Prune(now) => Pruned(m, now)
  }

  function ApplyAll<Quote>(ops: seq<Operation<Quote>>): Maps<Quote> {
    if |ops| == 0 then Maps(map[], map[]) else Apply(ApplyAll(ops[..|ops| - 1]), ops[|ops| - 1])
  }

  /** Over every sequence of operations the maps stay inverse: one live attempt per resource. */
  lemma {:induction false} AlwaysInverse<Quote>(ops: seq<Operation<Quote>>)
    ensures Inverse(ApplyAll(ops))
    ensures forall a, b | a in ApplyAll(ops).byAttempt && b in ApplyAll(ops).byAttempt ::
      ApplyAll(ops).byAttempt[a].key == ApplyAll(ops).byAttempt[b].key ==> a == b
  {
    if |ops| > 0 {
      AlwaysInverse(ops[..|ops| - 1]);
    }
  }

  /** The i-th operation put the attempt on record. */
  predicate TakenAt<Quote>(ops: seq<Operation<Quote>>, i: nat, attemptId: Id)
    requires i < |ops|
  {
    && ops[i].Remember? && ops[i].attemptId == attemptId
    && CanRemember(ApplyAll(ops[..i]), attemptId, ops[i].key)
  }

  /** Nothing after it dropped the attempt: it was not forgotten, and no cleaning came a day later. */
  predicate StandsFrom<Quote>(ops: seq<Operation<Quote>>, i: nat, attemptId: Id)
    requires i < |ops| && ops[i].Remember?
  {
    forall j :: i < j < |ops| ==>
      && (ops[j].Forget? ==> ops[j].attemptId != attemptId)
      && (ops[j].Prune? ==> ops[j].now < ops[i].now + ATTEMPT_RETENTION_MS)
  }

  /** What is on record, told from the operations: the resource, the quote and the deadline of the one that took it. */
  ghost predicate OnRecord<Quote(!new)>(ops: seq<Operation<Quote>>, attemptId: Id, entry: Entry<Quote>) {
    exists i :: 0 <= i < |ops|
      && TakenAt(ops, i, attemptId) && StandsFrom(ops, i, attemptId)
      && entry == Entry(attemptId, ops[i].key, ops[i].quote, ops[i].now + ATTEMPT_RETENTION_MS)
  }

  lemma RecordGoesOn<Quote(!new)>(ops: seq<Operation<Quote>>, op: Operation<Quote>, attemptId: Id, entry: Entry<Quote>)
    ensures OnRecord(ops + [op], attemptId, entry) <==>
      || (OnRecord(ops, attemptId, entry)
          && (op.Forget? ==> op.attemptId != attemptId) && (op.Prune? ==> op.now < entry.retainedUntil))
      || (op.Remember? && op.attemptId == attemptId && CanRemember(ApplyAll(ops), attemptId, op.key)
          && entry == Entry(attemptId, op.key, op.quote, op.now + ATTEMPT_RETENTION_MS))
  {
    var longer, n := ops + [op], |ops|;
    assert longer[..n] == ops && longer[n] == op;
    forall i | 0 <= i < n
      ensures TakenAt(longer, i, attemptId) == TakenAt(ops, i, attemptId)
      ensures TakenAt(ops, i, attemptId) ==>
        (StandsFrom(longer, i, attemptId) <==>
          && StandsFrom(ops, i, attemptId)
          && (op.Forget? ==> op.attemptId != attemptId)
          && (op.Prune? ==> op.now < ops[i].now + ATTEMPT_RETENTION_MS))
    {
      assert longer[..i] == ops[..i];
      assert forall j :: 0 <= j < n ==> longer[j] == ops[j];
    }
  }

  /** An attempt is found exactly while it is on record, with what was put there; a second one is refused meanwhile. */
  lemma {:induction false} FoundWhileOnRecord<Quote(!new)>(
      ops: seq<Operation<Quote>>, attemptId: Id, entry: Entry<Quote>)
    ensures attemptId in ApplyAll(ops).byAttempt && ApplyAll(ops).byAttempt[attemptId] == entry
      <==> OnRecord(ops, attemptId, entry)
  {
    if |ops| > 0 {
      var earlier, last := ops[..|ops| - 1], ops[|ops| - 1];
      FoundWhileOnRecord(earlier, attemptId, entry);
      assert ops == earlier + [last];
      RecordGoesOn(earlier, last, attemptId, entry);
    }
  }

  class Tracker<Quote(==)> {
    var byAttempt: map<Id, Entry<Quote>>
    var attemptByIdentity: map<Id, Id>

    ghost function State(): Maps<Quote>
      reads this
    {
      Maps(byAttempt, attemptByIdentity)
    }

    ghost predicate Valid()
      reads this
    {
      Inverse(State())
    }

    constructor ()
      ensures Valid() && State() == Maps(map[], map[])
    {
      byAttempt, attemptByIdentity := map[], map[];
    }

    /** False stands for the 409 the original throws. */
    method Remember(attemptId: Id, key: Id, quote: Quote, now: nat) returns (accepted: bool)
      requires Valid()
      modifies this
      ensures Valid()
      ensures accepted <==> old(CanRemember(State(), attemptId, key))
      ensures State() == if accepted then old(Remembered(State(), attemptId, key, quote, now)) else old(State())
    {
      if attemptId in byAttempt || key in attemptByIdentity {
        return false;
      }
      byAttempt := byAttempt[attemptId := Entry(attemptId, key, quote, now + ATTEMPT_RETENTION_MS)];
      attemptByIdentity := attemptByIdentity[key := attemptId];
      return true;
    }

    method ForAttempt(attemptId: Id) returns (entry: Option<Entry<Quote>>)
      ensures entry == if attemptId in byAttempt then Some(byAttempt[attemptId]) else None
    {
      return if attemptId in byAttempt then Some(byAttempt[attemptId]) else None;
    }

    /** The lookup by identity finds what the lookup by attempt finds, but for an empty attempt id. */
    method ForIdentity(key: Id) returns (entry: Option<Entry<Quote>>)
      requires Valid()
      ensures entry.Some? ==>
        entry.value.key == key && entry.value.attemptId in byAttempt
        && byAttempt[entry.value.attemptId] == entry.value
      ensures entry.None? <==> key !in attemptByIdentity || attemptByIdentity[key] == ""
    {
      if key !in attemptByIdentity || attemptByIdentity[key] == "" {
        return None;
      }
      return Some(byAttempt[attemptByIdentity[key]]);
    }

    /** The guard around the second deletion never fails: both entries always go together. */
    method Forget(attemptId: Id)
      requires Valid()
      modifies this
      ensures Valid() && State() == old(Forgotten(State(), attemptId))
    {
      if attemptId !in byAttempt {
        return;
      }
      var attempt := byAttempt[attemptId];
      byAttempt := byAttempt - {attemptId};
      if attempt.key in attemptByIdentity && attemptByIdentity[attempt.key] == attemptId {
        attemptByIdentity := attemptByIdentity - {attempt.key};
      }
    }

    method Prune(now: nat)
      requires Valid()
      modifies this
      ensures Valid() && State() == old(Pruned(State(), now))
    {
      var pending := byAttempt.Keys;
      while pending != {}
        invariant Valid()
        invariant pending <= byAttempt.Keys <= old(byAttempt).Keys
        invariant forall a :: a in byAttempt ==> byAttempt[a] == old(byAttempt)[a]
        invariant forall a :: a in old(byAttempt) ==>
          (a in byAttempt <==> a in pending || old(byAttempt)[a].retainedUntil > now)
        invariant forall k :: k in attemptByIdentity ==>
          k in old(attemptByIdentity) && attemptByIdentity[k] == old(attemptByIdentity)[k]
        decreases |pending|
      {
        var attemptId :| attemptId in pending;
        pending := pending - {attemptId};
        if byAttempt[attemptId].retainedUntil <= now {
          Forget(attemptId);
        }
      }
      assert byAttempt == old(Pruned(State(), now)).byAttempt;
      assert attemptByIdentity == old(Pruned(State(), now)).attemptByIdentity;
    }
  }

  // ---- the settlement fence ----

  datatype GuardOperation = Mark(key: Id, quoteExpiresAt: nat, now: nat) | Check(key: Id, now: nat) | Sweep(now: nat)

  function Retention(quoteExpiresAt: nat, now: nat): nat {
    if quoteExpiresAt > now + SETTLEMENT_RETENTION_MS then quoteExpiresAt else now + SETTLEMENT_RETENTION_MS
  }

  function GuardApply(settled: map<Id, nat>, op: GuardOperation): map<Id, nat> {
    match op
    case Mark(key, quoteExpiresAt, now) => settled[key := Retention(quoteExpiresAt, now)]
    case Check(key, now) => if key in settled && settled[key] <= now then settled - {key} else settled
    case Sweep(now) => map k | k in settled && settled[k] > now :: settled[k]
  }

  function GuardApplyAll(ops: seq<GuardOperation>): map<Id, nat> {
    if |ops| == 0 then map[] else GuardApply(GuardApplyAll(ops[..|ops| - 1]), ops[|ops| - 1])
  }

  predicate Refuses(settled: map<Id, nat>, key: Id, now: nat) {
    key in settled && settled[key] > now
  }

  /** The latest settlement of a resource. */
  function LatestMark(ops: seq<GuardOperation>, key: Id): (r: Option<GuardOperation>)
    ensures r.Some? ==> r.value.Mark?
  {
    if |ops| == 0 then None
    else
      var last := ops[|ops| - 1];
      if last.Mark? && last.key == key then Some(last) else LatestMark(ops[..|ops| - 1], key)
  }

  predicate NotAfter(ops: seq<GuardOperation>, now: nat) {
    forall op :: op in ops ==> op.now <= now
  }

  /**
   * Cleaning up never opens the fence: a resource is refused exactly while its
   * latest settlement is less than a day old or its quote has not expired.
   */
  lemma {:induction false} RefusedUntilLatestDeadline(ops: seq<GuardOperation>, key: Id, now: nat)
    requires NotAfter(ops, now)
    ensures Refuses(GuardApplyAll(ops), key, now) <==>
      && LatestMark(ops, key).Some?
      && (LatestMark(ops, key).value.quoteExpiresAt > now
          || LatestMark(ops, key).value.now + SETTLEMENT_RETENTION_MS > now)
  {
    if |ops| > 0 {
      var earlier := ops[..|ops| - 1];
      assert ops[|ops| - 1] in ops && forall op :: op in earlier ==> op in ops;
      RefusedUntilLatestDeadline(earlier, key, now);
    }
  }

  /** What has expired goes when it is checked or swept, and nothing else does. */
  lemma CleaningDropsTheExpired(settled: map<Id, nat>, key: Id, now: nat)
    ensures key in GuardApply(settled, Check(key, now)) <==> Refuses(settled, key, now)
    ensures forall k :: k in GuardApply(settled, Sweep(now)) <==> Refuses(settled, k, now)
    ensures forall k :: k != key ==> (k in GuardApply(settled, Check(key, now)) <==> k in settled)
    ensures forall op, k | op == Check(key, now) || op == Sweep(now) ::
      k in GuardApply(settled, op) ==> k in settled && GuardApply(settled, op)[k] == settled[k]
  {
  }

  class ReplayGuard {
    var settledUntil: map<Id, nat>

    constructor ()
      ensures settledUntil == map[]
    {
      settledUntil := map[];
    }

    /** False stands for the 409 of a resource that already settled. */
    method AssertNotSettled(key: Id, now: nat) returns (ok: bool)
      modifies this
      ensures ok <==> !Refuses(old(settledUntil), key, now)
      ensures settledUntil == GuardApply(old(settledUntil), Check(key, now))
    {
      if key !in settledUntil {
        return true;
      }
      if settledUntil[key] <= now {
        settledUntil := settledUntil - {key};
        return true;
      }
      return false;
    }

    method MarkSettled(key: Id, quoteExpiresAt: nat, now: nat)
      modifies this
      ensures settledUntil == GuardApply(old(settledUntil), Mark(key, quoteExpiresAt, now))
    {
      settledUntil := settledUntil[key := Retention(quoteExpiresAt, now)];
    }

    method Prune(now: nat)
      modifies this
      ensures settledUntil == GuardApply(old(settledUntil), Sweep(now))
    {
      var pending := settledUntil.Keys;
      while pending != {}
        invariant pending <= settledUntil.Keys <= old(settledUntil).Keys
        invariant forall k :: k in settledUntil ==> settledUntil[k] == old(settledUntil)[k]
        invariant forall k :: k in old(settledUntil) ==>
          (k in settledUntil <==> k in pending || old(settledUntil)[k] > now)
        decreases |pending|
      {
        var key :| key in pending;
        pending := pending - {key};
        if settledUntil[key] <= now {
          settledUntil := settledUntil - {key};
        }
      }
    }
  }
}
