/**
 * What one reconciliation pass decides from the answers of its RPC origins
 * (agent-orchestrator/src/pay-sh-reconciler.ts). The pass first scans every
 * origin, and only then asks every origin whether the blockhash is still valid.
 */
module Reconciler {
  import opened Wrappers

  /** A transaction signature; its base58 text is a bijective image of these bytes. */
  type Signature = seq<int>

  datatype ScanResult =
    | FoundSettled(signature: Signature)
    | FoundFailed(signature: Signature)
    | Absent
    | Inconclusive

  datatype ScanDecision = Settle(signature: Signature) | Defer | AskBlockhash

  datatype FinalDecision = KeepFence | ObserveAbsence | Release

  function UnanimousSettlement(scans: seq<ScanResult>): (r: Option<Signature>)
    ensures r.Some? <==> |scans| >= 2 && scans[0].FoundSettled? && forall i :: 0 <= i < |scans| ==> scans[i] == scans[0]
    ensures r.Some? ==> scans[0] == FoundSettled(r.value)
  {
    if |scans| < 2 || exists i :: 0 <= i < |scans| && !scans[i].FoundSettled? then None
    else
      var signature := scans[0].signature;
      if forall i :: 0 <= i < |scans| ==> scans[i].FoundSettled? && scans[i].signature == signature
      then Some(signature) else None
  }

  function AfterScans(scans: seq<ScanResult>): ScanDecision {
    var settled := UnanimousSettlement(scans);
    if settled.Some? then Settle(settled.value)
    else if exists i :: 0 <= i < |scans| && (scans[i].FoundSettled? || scans[i].Inconclusive?) then Defer
    else AskBlockhash
  }

  /** `None` is an origin that failed to answer, `Some(valid)` its finalized view of the blockhash. */
  function AfterBlockhash(views: seq<Option<bool>>, absenceObservedBefore: bool): FinalDecision {
    if |views| < 2 || exists i :: 0 <= i < |views| && (views[i].None? || views[i].value) then KeepFence
    else if !absenceObservedBefore then ObserveAbsence
    else Release
  }
}
