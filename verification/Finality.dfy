/**
 * The gateway's wait for independent finality (waitForIndependentPayShFinality
 * and rpcReportsExactFinalizedReceipt in payment-gateway/src/pay-sh-finality.ts):
 * polls until every origin shows the exact completed bytes without an error.
 */
module Finality {
  import opened Wrappers
  import opened TransactionBytes
  import opened Scan
  import opened ScanTruth
  import Protocol

  datatype Receipt = Receipt(signature: Bytes, bytes: Bytes)

  datatype Options = Options(origins: nat, minimumViews: int, timeoutMs: int, pollIntervalMs: int)

  predicate ValidOptions(o: Options) {
    && 1 <= o.minimumViews <= o.origins
    && 1 <= o.timeoutMs <= 45_000
    && 50 <= o.pollIntervalMs <= 5_000
  }

  /** One origin's answer from its finalized history; a failed call counts as a refusal. */
  predicate Reports(receipt: Receipt, h: seq<Record>) {
    var found := Lookup(h, receipt.signature);
    found.Some? && !found.value.failed && found.value.bytes == receipt.bytes
  }

  /** What origin `i` answers at poll `p`, and the clock after that poll. */
  datatype Rounds = Rounds(answers: (nat, nat) -> bool, clock: nat -> int)

  predicate Unanimous(r: Rounds, origins: nat, poll: nat) {
    forall i :: 0 <= i < origins ==> r.answers(poll, i)
  }

  /** One poll more than fit before the deadline. */
  function MaxPolls(o: Options): (n: nat)
    requires ValidOptions(o)
    ensures n >= 2 && (n - 2) * o.pollIntervalMs < o.timeoutMs <= (n - 1) * o.pollIntervalMs
  {
    (o.timeoutMs + o.pollIntervalMs - 1) / o.pollIntervalMs + 1
  }

  /** The poll is reached: no earlier one was unanimous or past the deadline. */
  ghost predicate Reached(r: Rounds, o: Options, deadline: int, poll: nat) {
    forall q :: 0 <= q < poll ==> !Unanimous(r, o.origins, q) && r.clock(q) < deadline
  }

  /** Ends within the poll budget, and says yes exactly when some reached poll was unanimous. */
  method WaitForFinality(o: Options, start: int, r: Rounds) returns (finalized: bool)
    ensures finalized <==>
      ValidOptions(o) && exists p: nat ::
        p < MaxPolls(o) && Reached(r, o, start + o.timeoutMs, p) && Unanimous(r, o.origins, p)
  {
    if !ValidOptions(o) {
      return false;
    }
    var deadline := start + o.timeoutMs;
    var maxPolls := MaxPolls(o);
    var poll := 0;
    while poll < maxPolls
      invariant 0 <= poll <= maxPolls && Reached(r, o, deadline, poll)
    {
      if Unanimous(r, o.origins, poll) {
        return true;
      }
      if r.clock(poll) >= deadline {
        assert forall p: nat :: Reached(r, o, deadline, p) ==> p <= poll;
        return false;
      }
      poll := poll + 1;
    }
    return false;
  }

  /**
   * A yes is worth a delivery: when the origin that never lies is among the
   * views and the receipt is the completion of the prepared bytes, the prepared
   * message has landed successfully under the receipt's signature.
   */
  lemma FinalityMeansPaid(signers: Signers, prepared: Bytes, receipt: Receipt, truth: seq<Record>, c: Protocol.Chain)
    requires ValidEnvelope(prepared) && Completable(signers, prepared)
    requires Complete(signers, prepared, receipt.signature) == Some(receipt.bytes)
    requires ReportsChain(truth, c) && Reports(receipt, truth)
    ensures var m := MessageOf(prepared);
      m in c.landed && c.landed[m].ok && c.landed[m].signature == receipt.signature
  {
    var record := Lookup(truth, receipt.signature).value;
    MatchesExactlyTheCompletion(signers, prepared, receipt.bytes, receipt.signature);
    MatchKeepsMessage(prepared, receipt.bytes, receipt.signature);
    var i :| 0 <= i < |truth| && truth[i] == record;
  }

  /** The first unanimous poll decides, and none after the deadline is made. */
  lemma OnePollDecides(r: Rounds, o: Options, deadline: int, p: nat, q: nat)
    requires Reached(r, o, deadline, p) && Reached(r, o, deadline, q)
    requires Unanimous(r, o.origins, p) || r.clock(p) >= deadline
    ensures q <= p
  {
  }

  /**
   * The whole wait: when one of the origins answers from the truth of its time,
   * a unanimous poll means that by then the message had landed and succeeded.
   */
  lemma UnanimityMeansPaid(
      signers: Signers, prepared: Bytes, receipt: Receipt, o: Options, r: Rounds, poll: nat,
      honest: nat, truth: seq<Record>, c: Protocol.Chain)
    requires ValidEnvelope(prepared) && Completable(signers, prepared)
    requires Complete(signers, prepared, receipt.signature) == Some(receipt.bytes)
    requires Unanimous(r, o.origins, poll) && honest < o.origins
    requires r.answers(poll, honest) ==> Reports(receipt, truth)
    requires ReportsChain(truth, c)
    ensures var m := MessageOf(prepared);
      m in c.landed && c.landed[m].ok && c.landed[m].signature == receipt.signature
  {
    FinalityMeansPaid(signers, prepared, receipt, truth, c);
  }
}
