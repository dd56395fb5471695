/**
 * The transport fence of the worker (installDurablePayFetchFence in
 * agent-orchestrator/src/durable-pay-client.ts): a paid request to the gateway
 * leaves the process only right after its exact bytes were recorded. Challenge
 * validation and the ledger's answer are parameters.
 */
module FetchFence {
  import opened Wrappers

  type Id = string
  type Bytes = seq<int>

  datatype Context = Context(attemptId: Id, quoteId: Id)

  /** A decoded payment credential; a missing field is one the fence insists on. */
  datatype Credential = Credential(
    transaction: Option<Bytes>, externalId: Option<string>, recentBlockhash: Option<string>, expiresAt: Option<nat>)

  datatype Request = Request(origin: string, attemptId: Option<Id>, credential: Option<Credential>)

  datatype Event = Recorded(attemptId: Id, quoteId: Id, transaction: Bytes) | Left(request: Request)

  datatype Outcome = Forwarded | NotSent

  predicate PaidRequest(gateway: string, r: Request) {
    r.origin == gateway && r.credential.Some?
  }

  predicate CompleteCredential(c: Credential) {
    c.transaction.Some? && c.externalId.Some? && c.recentBlockhash.Some? && c.expiresAt.Some?
  }

  /** A paid request that left did so right after the record of its own attempt and bytes. */
  ghost predicate RecordedFirst(gateway: string, log: seq<Event>, i: nat)
    requires i < |log|
  {
    log[i].Left? && PaidRequest(gateway, log[i].request) ==>
      && i > 0 && log[i - 1].Recorded?
      && log[i].request.attemptId == Some(log[i - 1].attemptId)
      && log[i].request.credential.value.transaction == Some(log[i - 1].transaction)
  }

  class Fence {
    const gateway: string
    var attempts: map<Id, Context>
    /** What the outside world has seen of this process, in order. */
    var log: seq<Event>

    ghost predicate Valid()
      reads this
    {
      && (forall a :: a in attempts ==> attempts[a].attemptId == a)
      && (forall i :: 0 <= i < |log| ==> RecordedFirst(gateway, log, i))
    }

    constructor (origin: string)
      ensures Valid() && gateway == origin && attempts == map[] && log == []
    {
      gateway, attempts, log := origin, map[], [];
    }

    /** Opens the fence for the time of one paid call; false stands for the two refusals. */
    method Enter(context: Context) returns (entered: bool)
      requires Valid()
      modifies this`attempts
      ensures Valid()
      ensures entered <==> AttemptId(context.attemptId) && context.attemptId !in old(attempts)
      ensures attempts == if entered then old(attempts)[context.attemptId := context] else old(attempts)
    {
      if !AttemptId(context.attemptId) || context.attemptId in attempts {
        return false;
      }
      attempts := attempts[context.attemptId := context];
      return true;
    }

    method Leave(attemptId: Id)
      requires Valid()
      modifies this`attempts
      ensures Valid() && attempts == old(attempts) - {attemptId}
    {
      attempts := attempts - {attemptId};
    }

    /** Everything unpaid passes; a paid request passes exactly when its record was committed. */
    method Fetch(request: Request, challengeValid: bool, prepareCommits: bool) returns (outcome: Outcome)
      requires Valid()
      modifies this`log
      ensures Valid()
      ensures !PaidRequest(gateway, request) ==> outcome == Forwarded && log == old(log) + [Left(request)]
      ensures PaidRequest(gateway, request) ==>
        (outcome == Forwarded <==>
          && request.attemptId.Some? && request.attemptId.value in attempts
          && CompleteCredential(request.credential.value) && challengeValid && prepareCommits)
      ensures PaidRequest(gateway, request) && outcome == Forwarded ==>
        log == old(log) + [Recorded(request.attemptId.value, attempts[request.attemptId.value].quoteId,
                                    request.credential.value.transaction.value), Left(request)]
      ensures outcome == NotSent ==> forall e :: e in log && e.Left? ==> e in old(log)
    {
      ghost var before := log;
      if !PaidRequest(gateway, request) {
        log := log + [Left(request)];
        forall i | 0 <= i < |log| ensures RecordedFirst(gateway, log, i) {
          assert i < |before| ==> RecordedFirst(gateway, before, i);
        }
        return Forwarded;
      }
      if request.attemptId.None? || request.attemptId.value !in attempts {
        return NotSent;
      }
      var context := attempts[request.attemptId.value];
      var credential := request.credential.value;
      if context.attemptId != request.attemptId.value || !CompleteCredential(credential) || !challengeValid {
        return NotSent;
      }
      if !prepareCommits {
        return NotSent;
      }
      var recorded := Recorded(context.attemptId, context.quoteId, credential.transaction.value);
      log := log + [recorded, Left(request)];
      forall i | 0 <= i < |log| ensures RecordedFirst(gateway, log, i) {
        assert i < |before| ==> RecordedFirst(gateway, before, i);
      }
      return Forwarded;
    }
  }

  predicate AttemptId(id: Id) {
    |id| == 64 && forall i :: 0 <= i < 64 ==> '0' <= id[i] <= '9' || 'a' <= id[i] <= 'f'
  }

  /** Thirty-two bytes, two lower-case hexadecimal digits each. */
  lemma AttemptIdExactly(id: Id)
    ensures AttemptId(id) <==> |id| == 64 && forall c :: c in id ==> c in "0123456789abcdef"
  {
    forall c: char ensures c in "0123456789abcdef" <==> '0' <= c <= '9' || 'a' <= c <= 'f' {
      OneHexDigit(c);
    }
    assert forall i :: 0 <= i < |id| ==> id[i] in id;
  }

  lemma OneHexDigit(c: char)
    ensures c in "0123456789abcdef" <==> '0' <= c <= '9' || 'a' <= c <= 'f'
  {
    var digits, letters := "0123456789", "abcdef";
    assert "0123456789abcdef" == digits + letters;
    assert forall i :: 0 <= i < 10 ==> digits[i] == '0' + i as char;
    assert forall i :: 0 <= i < 6 ==> letters[i] == 'a' + i as char;
    if '0' <= c <= '9' {
      assert digits[(c - '0') as int] == c;
    } else if 'a' <= c <= 'f' {
      assert letters[(c - 'a') as int] == c;
    }
  }
}
