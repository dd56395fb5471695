/**
 * Joins the byte level to the protocol: what the scan of a truthful origin
 * concludes from bytes is exactly what the protocol model lets that origin say
 * about the message.
 */
module ScanTruth {
  import opened Wrappers
  import opened Reconciler
  import opened TransactionBytes
  import opened Scan
  import Protocol

  /** Every usable record reports a message that really landed, with its outcome and signature. */
  ghost predicate ReportsChain(h: seq<Record>, c: Protocol.Chain) {
    forall i :: 0 <= i < |h| && ValidEnvelope(h[i].bytes) ==>
      && MessageOf(h[i].bytes) in c.landed
      && c.landed[MessageOf(h[i].bytes)].ok == !h[i].failed
      && c.landed[MessageOf(h[i].bytes)].signature == h[i].signature
  }

  /** When the prepared message landed by view `v`, the history holds it, fully signed. */
  ghost predicate HoldsLanded(
    signers: Signers, signing: Signing, h: seq<Record>, c: Protocol.Chain, v: nat, prepared: Bytes)
    requires Envelope(prepared)
  {
    MessageOf(prepared) in c.landed && c.landed[MessageOf(prepared)].slot <= v ==>
      exists i :: 0 <= i < |h| && Carries(signers, signing, h[i], MessageOf(prepared))
  }

  predicate Carries(signers: Signers, signing: Signing, r: Record, message: Bytes) {
    && Envelope(r.bytes) && MessageOf(r.bytes) == message && FullySigned(signers, signing, r.bytes)
    && r.signature == Slot(r.bytes, DecodeHeader(r.bytes).value.offset, 0)
  }

  /** For all prepared bytes that are signed as far as they are, one empty slot or several. */
  lemma ScanAnswersTruthfully(
    signers: Signers, signing: Signing, start: seq<Record>, end: seq<Record>, prepared: Bytes, c: Protocol.Chain,
    v: nat,
    r: ScanResult)
    requires ValidEnvelope(prepared) && PartlySigned(signers, signing, prepared)
    requires SoundScan(prepared, start, end, r)
    requires ReportsChain(end, c) && HoldsLanded(signers, signing, start, c, v, prepared)
    ensures Protocol.TruthfulScan(r, MessageOf(prepared), c, v)
  {
    match r {
      case Absent =>
        if MessageOf(prepared) in c.landed && c.landed[MessageOf(prepared)].slot <= v {
          var i :| 0 <= i < |start| && Carries(signers, signing, start[i], MessageOf(prepared));
          SignedMatches(signers, signing, prepared, start[i].bytes);
        }
      case FoundSettled(s) =>
        var i :| 0 <= i < |end| && Names(prepared, end[i], s) && !end[i].failed;
        MatchKeepsMessage(prepared, end[i].bytes, end[i].signature);
      case FoundFailed(s) =>
        var i :| 0 <= i < |end| && Names(prepared, end[i], s) && end[i].failed;
        MatchKeepsMessage(prepared, end[i].bytes, end[i].signature);
      case Inconclusive =>
    }
  }
}
