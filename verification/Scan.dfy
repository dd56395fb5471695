/**
 * One origin's scan of the payer's finalized history for the prepared bytes
 * (scanFinalizedTransactions in agent-orchestrator/src/pay-sh-reconciler.ts),
 * run against an origin that never lies. Its k-th answer is computed from
 * `views(k)`, the history it has finalized by then, oldest record first.
 */
module Scan {
  import opened Wrappers
  import opened Reconciler
  import opened TransactionBytes

  const PAGE_LIMIT: nat := 1000

  datatype Record = Record(signature: Bytes, bytes: Bytes, failed: bool)

  /** What an origin answers with, call by call; a fault is an RPC error or a missing body. */
  datatype Origin = Origin(views: nat -> seq<Record>, faults: nat -> bool, verify: Bytes -> bool)

  ghost predicate Truthful(o: Origin) {
    forall k: nat :: o.views(k) <= o.views(k + 1) && DistinctSignatures(o.views(k))
  }

  ghost predicate DistinctSignatures(h: seq<Record>) {
    forall i, j :: 0 <= i < j < |h| ==> h[i].signature != h[j].signature
  }

  predicate MatchesRecord(prepared: Bytes, r: Record) {
    Matches(prepared, r.bytes, r.signature)
  }

  // ---- the two RPC calls of a truthful origin ----

  /** getTransaction: the record with that signature. */
  function Lookup(h: seq<Record>, signature: Bytes): (r: Option<Record>)
    ensures r.Some? ==> r.value in h && r.value.signature == signature
    ensures r.None? ==> forall i :: 0 <= i < |h| ==> h[i].signature != signature
  {
    if h == [] then None
    else if h[|h| - 1].signature == signature then Some(h[|h| - 1])
    else Lookup(h[..|h| - 1], signature)
  }

  lemma LookupFinds(h: seq<Record>, i: nat)
    requires DistinctSignatures(h) && i < |h|
    ensures Lookup(h, h[i].signature) == Some(h[i])
  {
  }

  /** The position of the `before` cursor; the newest end when there is none. */
  function Cursor(h: seq<Record>, before: Option<Bytes>): (n: nat)
    ensures n <= |h| && (before.None? ==> n == |h|)
    decreases |h|
  {
    if before.None? || h == [] then |h|
    else if h[|h| - 1].signature == before.value then |h| - 1
    else Cursor(h[..|h| - 1], before)
  }

  lemma CursorFinds(h: seq<Record>, i: nat)
    requires DistinctSignatures(h) && i < |h|
    ensures Cursor(h, Some(h[i].signature)) == i
  {
  }

  /** getSignaturesForAddress: up to a page of records older than the cursor, newest first. */
  function Page(h: seq<Record>, before: Option<Bytes>): (page: seq<Record>)
    ensures |page| == if Cursor(h, before) < PAGE_LIMIT then Cursor(h, before) else PAGE_LIMIT
    ensures forall j :: 0 <= j < |page| ==> page[j] == h[Cursor(h, before) - 1 - j]
  {
    var n := Cursor(h, before);
    seq(if n < PAGE_LIMIT then n else PAGE_LIMIT, j requires 0 <= j < n => h[n - 1 - j])
  }

  lemma {:induction false} ViewsGrow(o: Origin, i: nat, j: nat)
    requires Truthful(o) && i <= j
    ensures o.views(i) <= o.views(j)
    decreases j - i
  {
    if i < j {
      ViewsGrow(o, i, j - 1);
      assert o.views(j - 1) <= o.views(j - 1 + 1);
    }
  }

  /** A page entry is still found, unchanged, by every later call. */
  lemma LaterLookup(o: Origin, i: nat, j: nat, position: nat)
    requires Truthful(o) && i <= j && position < |o.views(i)|
    ensures Lookup(o.views(j), o.views(i)[position].signature) == Some(o.views(i)[position])
  {
    ViewsGrow(o, i, j);
    LookupFinds(o.views(j), position);
  }

  // ---- what a scan may conclude ----

  /** The three conclusive answers, relative to the history at the scan's start and at its end. */
  ghost predicate SoundScan(prepared: Bytes, start: seq<Record>, end: seq<Record>, r: ScanResult) {
    match r
    case Absent => forall i :: 0 <= i < |start| ==> !MatchesRecord(prepared, start[i])
    case FoundSettled(s) => exists i :: 0 <= i < |end| && Names(prepared, end[i], s) && !end[i].failed
    case FoundFailed(s) => exists i :: 0 <= i < |end| && Names(prepared, end[i], s) && end[i].failed
    case Inconclusive => true
  }

  predicate Names(prepared: Bytes, r: Record, signature: Signature) {
    r.signature == signature && ValidEnvelope(r.bytes) && MatchesRecord(prepared, r)
  }

  /** The sizes that decoding lets through. */
  predicate WireSized(bytes: Bytes) {
    100 <= |bytes| <= 2048
  }

  /** Why a scan of a truthful origin may stay inconclusive. */
  ghost predicate Obstructed(o: Origin, prepared: Bytes, calls: nat, pages: nat) {
    || !WireSized(prepared) || !ValidEnvelope(prepared)
    || (exists k :: 0 <= k < calls && o.faults(k))
    || PAGE_LIMIT * pages <= |o.views(calls)|
    || (exists i :: 0 <= i < |o.views(calls)| && Unusable(o, prepared, o.views(calls)[i]))
  }

  predicate Unusable(o: Origin, prepared: Bytes, r: Record) {
    !WireSized(r.bytes) || !ValidEnvelope(r.bytes) || !o.verify(r.bytes)
      || (ValidEnvelope(prepared) && KnownSignature(prepared) == Some(r.signature) && r.bytes != prepared)
  }

  /** A fully signed record equal to the prepared bytes matches them. */
  lemma KnownMatches(prepared: Bytes, known: Bytes)
    requires Envelope(prepared) && KnownSignature(prepared) == Some(known)
    ensures Matches(prepared, prepared, known)
  {
  }

  /** Bytes that match a fully signed transaction carry its known signature. */
  lemma MatchIsKnown(prepared: Bytes, known: Bytes, r: Record)
    requires Envelope(prepared) && KnownSignature(prepared) == Some(known) && MatchesRecord(prepared, r)
    ensures r.signature == known
  {
    var h := DecodeHeader(prepared).value;
    assert SlotMatches(Slot(prepared, h.offset, 0), Slot(r.bytes, h.offset, 0));
  }

  method ScanFinalizedTransactions(o: Origin, prepared: Bytes, maxPages: nat) returns (r: ScanResult, calls: nat)
    requires Truthful(o)
    ensures SoundScan(prepared, o.views(0), o.views(calls), r)
    ensures r == Inconclusive ==> Obstructed(o, prepared, calls, if maxPages < 1 then 1 else maxPages)
  {
    calls := 0;
    if !WireSized(prepared) || !ValidEnvelope(prepared) {
      return Inconclusive, calls;
    }
    var knownSignature := FullySignedTransactionSignature(prepared);
    if knownSignature.Some? {
      r, calls := LookUpKnown(o, prepared, knownSignature.value);
    } else {
      r, calls := WalkHistory(o, prepared, if maxPages < 1 then 1 else maxPages);
    }
  }

  method LookUpKnown(o: Origin, prepared: Bytes, known: Bytes) returns (r: ScanResult, calls: nat)
    requires Truthful(o) && ValidEnvelope(prepared) && KnownSignature(prepared) == Some(known)
    ensures SoundScan(prepared, o.views(0), o.views(calls), r)
    ensures r == Inconclusive ==> forall pages :: Obstructed(o, prepared, calls, pages)
  {
    calls := 0;
    if o.faults(0) {
      calls := 1;
      return Inconclusive, calls;
    }
    var found := Lookup(o.views(0), known);
    if found.None? {
      forall i | 0 <= i < |o.views(0)| ensures !MatchesRecord(prepared, o.views(0)[i]) {
        if MatchesRecord(prepared, o.views(0)[i]) {
          MatchIsKnown(prepared, known, o.views(0)[i]);
        }
      }
      return Absent, calls;
    }
    var record := found.value;
    assert exists i :: 0 <= i < |o.views(0)| && o.views(0)[i] == record;
    if !WireSized(record.bytes) || !ValidEnvelope(record.bytes) || record.bytes != prepared || !o.verify(record.bytes) {
      return Inconclusive, calls;
    }
    KnownMatches(prepared, known);
    r := if record.failed then FoundFailed(known) else FoundSettled(known);
  }

  /** The inner loop: every entry of the page fetched by call `first`, whose newest record is `top - 1`. */
  method ScanPage(o: Origin, prepared: Bytes, first: nat, signatures: seq<Record>, ghost top: nat)
    returns (stop: Option<ScanResult>, call: nat)
    requires Truthful(o) && ValidEnvelope(prepared)
    requires |signatures| <= top <= |o.views(first)|
    requires forall j :: 0 <= j < |signatures| ==> signatures[j] == o.views(first)[top - 1 - j]
    ensures first < call && o.views(first) <= o.views(call)
    ensures stop.None? ==> forall i :: top - |signatures| <= i < top ==> !MatchesRecord(prepared, o.views(first)[i])
    ensures stop.Some? ==> !stop.value.Absent? && SoundScan(prepared, o.views(0), o.views(call), stop.value)
    ensures stop == Some(Inconclusive) ==> forall pages :: Obstructed(o, prepared, call, pages)
  {
    hide ValidEnvelope, Matches, Lookup, DistinctSignatures;
    call := first + 1;
    ViewsGrow(o, first, call);
    var index := 0;
    while index < |signatures|
      invariant 0 <= index <= |signatures| && call == first + 1 + index
      invariant o.views(first) <= o.views(call)
      invariant forall i :: top - index <= i < top ==> !MatchesRecord(prepared, o.views(first)[i])
    {
      LaterLookup(o, first, call, top - 1 - index);
      ViewsGrow(o, first, call + 1);
      if o.faults(call) {
        return Some(Inconclusive), call + 1;
      }
      var record := Lookup(o.views(call), signatures[index].signature).value;
      assert record == o.views(call)[top - 1 - index];
      if !WireSized(record.bytes) || !ValidEnvelope(record.bytes) {
        return Some(Inconclusive), call;
      }
      var matches := MatchesPreparedTransaction(prepared, record.bytes, record.signature);
      if matches {
        if !o.verify(record.bytes) {
          return Some(Inconclusive), call;
        }
        return Some(if record.failed then FoundFailed(record.signature) else FoundSettled(record.signature)), call;
      }
      call := call + 1;
      index := index + 1;
    }
    return None, call;
  }

  method WalkHistory(o: Origin, prepared: Bytes, pages: nat) returns (r: ScanResult, calls: nat)
    requires Truthful(o) && ValidEnvelope(prepared) && 1 <= pages
    ensures SoundScan(prepared, o.views(0), o.views(calls), r)
    ensures r == Inconclusive ==> Obstructed(o, prepared, calls, pages)
  {
    hide ValidEnvelope, MatchesRecord, Names, Unusable, Cursor, DistinctSignatures;
    var before: Option<Bytes> := None;
    var call: nat := 0;
    ghost var top: nat := |o.views(0)|;
    var page := 0;
    while page < pages
      invariant 0 <= page <= pages
      invariant page == 0 ==> call == 0 && before == None && top == |o.views(0)|
      invariant page > 0 ==> top < |o.views(call)| && before == Some(o.views(call)[top].signature)
      invariant top <= |o.views(call)| && PAGE_LIMIT * page <= |o.views(call)| - top
      invariant forall i :: top <= i < |o.views(0)| ==> !MatchesRecord(prepared, o.views(0)[i])
    {
      if o.faults(call) {
        calls := call + 1;
        return Inconclusive, calls;
      }
      if page > 0 {
        CursorFinds(o.views(call), top);
      }
      assert Cursor(o.views(call), before) == top;
      ViewsGrow(o, 0, call);
      var signatures := Page(o.views(call), before);
      ghost var h := o.views(call);
      if |signatures| == 0 {
        calls := call;
        return Absent, calls;
      }
      var stop;
      stop, call := ScanPage(o, prepared, call, signatures, top);
      calls := call;
      if stop.Some? {
        return stop.value, calls;
      }
      if |signatures| < PAGE_LIMIT {
        return Absent, calls;
      }
      before := Some(signatures[|signatures| - 1].signature);
      assert o.views(call)[top - PAGE_LIMIT] == h[top - PAGE_LIMIT];
      top := top - PAGE_LIMIT;
      page := page + 1;
    }
    calls := call;
    return Inconclusive, calls;
  }
}
