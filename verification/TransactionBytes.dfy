/**
 * The signed-transaction envelope: a short-vector signature count, that many
 * 64-byte signature slots, then the message. The gateway completes a prepared
 * envelope from a receipt (payment-gateway/src/pay-sh-finality.ts) and the
 * reconciler matches a finalized one against it
 * (agent-orchestrator/src/pay-sh-reconciler.ts).
 *
 * A base58 signature text is represented by the bytes it encodes.
 */
module TransactionBytes {
  import opened Wrappers

  type Byte = x: int | 0 <= x < 256
  type Bytes = seq<Byte>

  const SIGNATURE_BYTES: nat := 64

  /** A decoded count and the number of bytes it took. */
  datatype Header = Header(value: nat, offset: nat)

  // ---- compact-u16 ----

  function CompactU16(value: nat): (bytes: Bytes)
    ensures 1 <= |bytes|
  {
    if value < 128 then [value] else [value % 128 + 128] + CompactU16(value / 128)
  }

  /** Little-endian base 128: each byte carries seven bits, the last one has its high bit clear. */
  function ShortVec(bytes: Bytes, limit: nat): (h: Option<Header>)
    ensures h.Some? ==> 1 <= h.value.offset <= |bytes| && h.value.offset <= limit
    decreases limit
  {
    if bytes == [] || limit == 0 then None
    else if bytes[0] < 128 then Some(Header(bytes[0], 1))
    else
      match ShortVec(bytes[1..], limit - 1)
      case None => None
      case Some(h) => Some(Header(bytes[0] - 128 + 128 * h.value, h.offset + 1))
  }

  function DecodeHeader(bytes: Bytes): Option<Header> {
    ShortVec(bytes, 3)
  }

  /** The encoder's do-while loop. */
  method EncodeCompactU16(value: nat) returns (bytes: Option<Bytes>)
    ensures bytes == if value <= 0xffff then Some(CompactU16(value)) else None
  {
    if value > 0xffff {
      return None;
    }
    var encoded: Bytes := [];
    var remaining := value;
    var done := false;
    while !done
      invariant done ==> encoded == CompactU16(value)
      invariant !done ==> encoded + CompactU16(remaining) == CompactU16(value)
      decreases if done then 0 else 1 + remaining
    {
      var low: int := remaining % 128;
      remaining := remaining / 128;
      encoded := encoded + [if remaining == 0 then low else low + 128];
      done := remaining == 0;
    }
    return Some(encoded);
  }

  /** The decoder's loop; the bits it ors together never overlap, so the or is a sum. */
  method DecodeShortVec(bytes: Bytes) returns (header: Option<Header>)
    ensures header == DecodeHeader(bytes)
  {
    hide ShortVec, Pow128;
    var value: nat, scale: nat, offset: nat := 0, 1, 0;
    ResumeStart(bytes);
    while offset < |bytes| && offset < 3
      invariant 0 <= offset <= |bytes| && offset <= 3 && scale == Pow128(offset)
      invariant DecodeHeader(bytes) == Resume(value, scale, offset, ShortVec(bytes[offset..], 3 - offset))
    {
      var byte: int := bytes[offset];
      ResumeStep(bytes, value, offset);
      NextScale(offset);
      value := value + byte % 128 * scale;
      if byte < 128 {
        return Some(Header(value, offset + 1));
      }
      scale := scale * 128;
      offset := offset + 1;
    }
    ResumeEnd(bytes, offset);
    return None;
  }

  function Pow128(k: nat): nat {
    if k == 0 then 1 else Pow128(k - 1) * 128
  }

  /** The header that remains to be found when `value` was read from the first `offset` bytes. */
  function Resume(value: nat, scale: nat, offset: nat, rest: Option<Header>): Option<Header> {
    if rest.None? then None else Some(Header(value + scale * rest.value.value, offset + rest.value.offset))
  }

  lemma NextScale(k: nat)
    ensures Pow128(k + 1) == Pow128(k) * 128
  {
  }

  lemma ResumeStart(bytes: Bytes)
    ensures Pow128(0) == 1 && ShortVec(bytes, 3) == Resume(0, 1, 0, ShortVec(bytes[0..], 3))
  {
    assert bytes[0..] == bytes;
  }

  lemma ResumeEnd(bytes: Bytes, offset: nat)
    requires offset == |bytes| <= 3 || (offset == 3 && offset <= |bytes|)
    ensures ShortVec(bytes[offset..], 3 - offset).None?
  {
  }

  lemma ResumeStep(bytes: Bytes, value: nat, offset: nat)
    requires offset < |bytes| && offset < 3
    ensures var scale := Pow128(offset);
      var byte := bytes[offset];
      Resume(value, scale, offset, ShortVec(bytes[offset..], 3 - offset))
        == if byte < 128 then Some(Header(value + byte % 128 * scale, offset + 1))
           else Resume(value + byte % 128 * scale, scale * 128, offset + 1, ShortVec(bytes[offset + 1..], 2 - offset))
  {
    assert bytes[offset..][1..] == bytes[offset + 1..];
    assert Pow128(1) == 128 && Pow128(2) == 16384;
  }

  /** Decoding undoes encoding for every value the encoder accepts, whatever follows. */
  lemma {:induction false} HeaderRoundTrip(value: nat, rest: Bytes, limit: nat)
    requires 1 <= limit && value < Pow128(limit)
    ensures ShortVec(CompactU16(value) + rest, limit) == Some(Header(value, |CompactU16(value)|))
    decreases limit
  {
    if value >= 128 {
      assert Pow128(0) == 1 && Pow128(1) == 128;
      HeaderRoundTrip(value / 128, rest, limit - 1);
      var bytes := CompactU16(value) + rest;
      assert bytes[1..] == CompactU16(value / 128) + rest;
    }
  }

  lemma EncodedHeaderDecodes(value: nat, rest: Bytes)
    requires value <= 0xffff
    ensures DecodeHeader(CompactU16(value) + rest) == Some(Header(value, |CompactU16(value)|))
  {
    assert Pow128(1) == 128 && Pow128(2) == 16384 && Pow128(3) == 2097152;
    HeaderRoundTrip(value, rest, 3);
  }

  /** A count and a length determine the header bytes, canonical or not. */
  lemma {:induction false} HeaderBytesAreDetermined(p: Bytes, c: Bytes, limit: nat)
    requires ShortVec(p, limit).Some? && ShortVec(p, limit) == ShortVec(c, limit)
    ensures var n := ShortVec(p, limit).value.offset; p[..n] == c[..n]
    decreases limit
  {
    if p[0] >= 128 {
      HeaderBytesAreDetermined(p[1..], c[1..], limit - 1);
      var n := ShortVec(p, limit).value.offset;
      assert p[..n] == [p[0]] + p[1..][..n - 1];
      assert c[..n] == [c[0]] + c[1..][..n - 1];
    }
  }

  // ---- envelopes ----

  predicate IsZero(bytes: Bytes) {
    forall i :: 0 <= i < |bytes| ==> bytes[i] == 0
  }

  /** The i-th 64-byte signature slot after a header of `offset` bytes. */
  function Slot(bytes: Bytes, offset: nat, i: nat): (slot: Bytes)
    requires offset + 64 * (i + 1) <= |bytes|
    ensures |slot| == 64
  {
    bytes[offset + 64 * i..offset + 64 * (i + 1)]
  }

  /** A header the encoder can write, that many signature slots and a non-empty message. */
  predicate Envelope(bytes: Bytes) {
    var h := DecodeHeader(bytes);
    h.Some? && 1 <= h.value.value <= 0xffff && h.value.offset + 64 * h.value.value < |bytes|
  }

  /** The envelopes a finalized history is scanned for: at most 64 signatures. */
  predicate ValidEnvelope(bytes: Bytes) {
    Envelope(bytes) && DecodeHeader(bytes).value.value <= 64
  }

  function MessageOf(bytes: Bytes): Bytes
    requires Envelope(bytes)
  {
    var h := DecodeHeader(bytes).value;
    bytes[h.offset + 64 * h.value..]
  }

  /** The slots from the i-th on, as the decoder lists them. */
  function SlotsFrom(bytes: Bytes, offset: nat, count: nat, i: nat): (slots: seq<Bytes>)
    requires i <= count && offset + 64 * count <= |bytes|
    ensures |slots| == count - i
    ensures forall k :: 0 <= k < |slots| ==> slots[k] == Slot(bytes, offset, i + k)
    decreases count - i
  {
    if i == count then [] else [Slot(bytes, offset, i)] + SlotsFrom(bytes, offset, count, i + 1)
  }

  function Concatenated(parts: seq<Bytes>): Bytes {
    if parts == [] then [] else parts[0] + Concatenated(parts[1..])
  }

  lemma {:induction false} SlotsConcatenate(bytes: Bytes, offset: nat, count: nat, i: nat)
    requires i <= count && offset + 64 * count <= |bytes|
    ensures Concatenated(SlotsFrom(bytes, offset, count, i)) == bytes[offset + 64 * i..offset + 64 * count]
    decreases count - i
  {
    if i < count {
      SlotsConcatenate(bytes, offset, count, i + 1);
      assert SlotsFrom(bytes, offset, count, i)[1..] == SlotsFrom(bytes, offset, count, i + 1);
      assert bytes[offset + 64 * i..offset + 64 * (i + 1)] + bytes[offset + 64 * (i + 1)..offset + 64 * count]
        == bytes[offset + 64 * i..offset + 64 * count];
    }
  }

  /** How many signers a message names; None when the message cannot be decoded. */
  type Signers = Bytes -> Option<nat>

  /** The decoder takes a message only with one slot for each of its signers. */
  predicate Decodable(signers: Signers, bytes: Bytes)
    requires Envelope(bytes)
  {
    signers(MessageOf(bytes)) == Some(DecodeHeader(bytes).value.value)
  }

  /**
   * The gateway's completion: the receipt's signature fills the fee-payer slot,
   * every other slot must already be signed, and nothing signed may change.
   * None stands for every refusal of the original.
   */
  function Complete(signers: Signers, prepared: Bytes, receipt: Bytes): Option<Bytes> {
    var header := DecodeHeader(prepared);
    if header.None? || |prepared| <= header.value.offset + 64 * header.value.value then None
    else
      var count, offset := header.value.value, header.value.offset;
      if count == 0 || count > 0xffff || |receipt| != 64 then None
      else if signers(prepared[offset + 64 * count..]) != Some(count) then None
      else
        var slots := SlotsFrom(prepared, offset, count, 0);
        var completed := [receipt] + slots[1..];
        if exists i :: 0 <= i < count && IsZero(completed[i]) then None
        else if !IsZero(slots[0]) && slots[0] != receipt then None
        else
          var message := prepared[offset + 64 * count..];
          var finalized := CompactU16(count) + Concatenated(completed) + message;
          var again := DecodeHeader(finalized);
          if again.None? || again.value.value != count
             || |finalized| < again.value.offset + 64 * count
             || finalized[again.value.offset + 64 * count..] != message
             || signers(message) != Some(again.value.value) then None
          else Some(finalized)
  }

  /** The slot rule of `matchesPreparedTransaction`: a zero slot gets filled, a signed one is kept. */
  predicate SlotMatches(prepared: Bytes, candidate: Bytes) {
    if IsZero(prepared) then !IsZero(candidate) else prepared == candidate
  }

  predicate Matches(prepared: Bytes, candidate: Bytes, rpcSignature: Bytes) {
    var p, c := DecodeHeader(prepared), DecodeHeader(candidate);
    && p.Some? && c == p && |prepared| == |candidate| && 1 <= p.value.value
    && var count, offset := p.value.value, p.value.offset;
       && offset + 64 * count <= |prepared|
       && prepared[offset + 64 * count..] == candidate[offset + 64 * count..]
       && (forall i :: 0 <= i < count ==> SlotMatches(Slot(prepared, offset, i), Slot(candidate, offset, i)))
       && Slot(candidate, offset, 0) == rpcSignature
  }

  method MatchesPreparedTransaction(prepared: Bytes, candidate: Bytes, rpcSignature: Bytes) returns (matches: bool)
    ensures matches == Matches(prepared, candidate, rpcSignature)
  {
    var preparedHeader := DecodeShortVec(prepared);
    var candidateHeader := DecodeShortVec(candidate);
    if preparedHeader.None? || candidateHeader.None? || preparedHeader != candidateHeader
       || |prepared| != |candidate| || preparedHeader.value.value < 1 {
      return false;
    }
    var count: nat, offset: nat := preparedHeader.value.value, preparedHeader.value.offset;
    var messageOffset := offset + count * 64;
    if messageOffset > |prepared| || prepared[messageOffset..] != candidate[messageOffset..] {
      return false;
    }
    var index := 0;
    while index < count
      invariant 0 <= index <= count
      invariant forall i :: 0 <= i < index ==> SlotMatches(Slot(prepared, offset, i), Slot(candidate, offset, i))
    {
      var preparedSignature := Slot(prepared, offset, index);
      var candidateSignature := Slot(candidate, offset, index);
      if IsZero(preparedSignature) {
        if IsZero(candidateSignature) {
          return false;
        }
      } else if preparedSignature != candidateSignature {
        return false;
      }
      index := index + 1;
    }
    return Slot(candidate, offset, 0) == rpcSignature;
  }

  /** The prepared bytes carry the header the encoder would write. */
  predicate CanonicalHeader(prepared: Bytes)
    requires Envelope(prepared)
  {
    var h := DecodeHeader(prepared).value;
    prepared[..h.offset] == CompactU16(h.value)
  }

  /** Every slot but the fee payer's is already signed. */
  predicate OnlyFeePayerMissing(prepared: Bytes)
    requires Envelope(prepared)
  {
    var h := DecodeHeader(prepared).value;
    forall i :: 1 <= i < h.value ==> !IsZero(Slot(prepared, h.offset, i))
  }

  /** The completed slots: the receipt first, the prepared ones after it. */
  lemma CompletedSlots(prepared: Bytes, receipt: Bytes)
    requires Envelope(prepared) && |receipt| == 64
    ensures var h := DecodeHeader(prepared).value;
      var slots := SlotsFrom(prepared, h.offset, h.value, 0);
      var completed := [receipt] + slots[1..];
      && slots[0] == Slot(prepared, h.offset, 0)
      && Concatenated(completed) == receipt + prepared[h.offset + 64..h.offset + 64 * h.value]
      && ((exists i :: 0 <= i < h.value && IsZero(completed[i])) <==> IsZero(receipt) || !OnlyFeePayerMissing(prepared))
  {
    var h := DecodeHeader(prepared).value;
    hide DecodeHeader, IsZero;
    var slots := SlotsFrom(prepared, h.offset, h.value, 0);
    SlotsAfterFirst(prepared, h.offset, h.value, receipt);
    ReceiptFirst(slots, receipt);
    EmptyBehind(prepared, h.offset, [receipt] + slots[1..], h.value);
  }

  lemma ReceiptFirst(slots: seq<Bytes>, receipt: Bytes)
    requires |slots| > 0
    ensures var completed := [receipt] + slots[1..];
      |completed| == |slots| && completed[0] == receipt && forall i :: 1 <= i < |slots| ==> completed[i] == slots[i]
  {
  }

  lemma SlotsAfterFirst(bytes: Bytes, offset: nat, count: nat, receipt: Bytes)
    requires 1 <= count && offset + 64 * count <= |bytes|
    ensures var slots := SlotsFrom(bytes, offset, count, 0);
      && slots[0] == Slot(bytes, offset, 0)
      && Concatenated([receipt] + slots[1..]) == receipt + bytes[offset + 64..offset + 64 * count]
  {
    var slots := SlotsFrom(bytes, offset, count, 0);
    var completed := [receipt] + slots[1..];
    assert slots[1..] == SlotsFrom(bytes, offset, count, 1);
    assert completed[0] == receipt && completed[1..] == slots[1..];
    SlotsConcatenate(bytes, offset, count, 1);
  }

  lemma EmptyBehind(bytes: Bytes, offset: nat, slots: seq<Bytes>, count: nat)
    requires 1 <= count <= |slots| && offset + 64 * count <= |bytes|
    requires forall i :: 1 <= i < count ==> slots[i] == Slot(bytes, offset, i)
    ensures (exists i :: 0 <= i < count && IsZero(slots[i]))
      <==> IsZero(slots[0]) || exists i :: 1 <= i < count && IsZero(Slot(bytes, offset, i))
  {
    hide IsZero, Slot;
    if i :| 1 <= i < count && IsZero(Slot(bytes, offset, i)) {
      assert IsZero(slots[i]);
    }
  }

  /** The completion's own round-trip check never fires. */
  lemma RoundTripCheckPasses(count: nat, signatures: Bytes, message: Bytes)
    requires count <= 0xffff && |signatures| == 64 * count
    ensures var finalized := CompactU16(count) + signatures + message;
      && DecodeHeader(finalized) == Some(Header(count, |CompactU16(count)|))
      && finalized[|CompactU16(count)| + 64 * count..] == message
  {
    assert CompactU16(count) + signatures + message == CompactU16(count) + (signatures + message);
    EncodedHeaderDecodes(count, signatures + message);
  }

  lemma CompletionShape(signers: Signers, prepared: Bytes, receipt: Bytes)
    requires Envelope(prepared) && |receipt| == 64
    ensures var h := DecodeHeader(prepared).value;
      Complete(signers, prepared, receipt) ==
        if !Decodable(signers, prepared) || IsZero(receipt) || !OnlyFeePayerMissing(prepared)
           || !SlotMatches(Slot(prepared, h.offset, 0), receipt) then None
        else Some(CompactU16(h.value) + receipt + prepared[h.offset + 64..])
  {
    var h := DecodeHeader(prepared).value;
    CompletedSlots(prepared, receipt);
    var signatures := receipt + prepared[h.offset + 64..h.offset + 64 * h.value];
    var message := prepared[h.offset + 64 * h.value..];
    RoundTripCheckPasses(h.value, signatures, message);
    assert CompactU16(h.value) + signatures + message == CompactU16(h.value) + receipt + prepared[h.offset + 64..];
  }

  /** Nothing else is ever completed. */
  lemma OnlyEnvelopesComplete(signers: Signers, prepared: Bytes, receipt: Bytes)
    ensures Complete(signers, prepared, receipt).Some? ==>
      |receipt| == 64 && Envelope(prepared) && Decodable(signers, prepared) && OnlyFeePayerMissing(prepared)
  {
    if |receipt| == 64 && Envelope(prepared) {
      CompletionShape(signers, prepared, receipt);
    }
    hide SlotsFrom, Concatenated, CompactU16, OnlyFeePayerMissing;
  }

  /** What the gateway can complete: one slot empty at most, under the header the encoder writes. */
  predicate Completable(signers: Signers, prepared: Bytes)
    requires Envelope(prepared)
  {
    CanonicalHeader(prepared) && OnlyFeePayerMissing(prepared) && Decodable(signers, prepared)
  }

  /**
   * The reconciler's matcher and the gateway's completion accept exactly the
   * same finalized bytes, once only the fee payer's signature was missing.
   */
  lemma MatchesExactlyTheCompletion(signers: Signers, prepared: Bytes, candidate: Bytes, signature: Bytes)
    requires Envelope(prepared) && Completable(signers, prepared)
    ensures Matches(prepared, candidate, signature) <==> Complete(signers, prepared, signature) == Some(candidate)
  {
    var h := DecodeHeader(prepared).value;
    if |signature| == 64 {
      CompletionShape(signers, prepared, signature);
      if Matches(prepared, candidate, signature) {
        HeaderBytesAreDetermined(prepared, candidate, 3);
        MatchingBytes(prepared, candidate, signature);
      } else if Complete(signers, prepared, signature) == Some(candidate) {
        CompletionMatches(signers, prepared, candidate, signature);
      }
    }
  }

  /** They say the same of every candidate and every signature. */
  ghost predicate Coincide(signers: Signers, prepared: Bytes) {
    forall candidate: Bytes, signature: Bytes ::
      Matches(prepared, candidate, signature) <==> Complete(signers, prepared, signature) == Some(candidate)
  }

  /** ... and they do so for no other prepared bytes. */
  lemma CoincideExactly(signers: Signers, prepared: Bytes)
    requires Envelope(prepared)
    ensures Coincide(signers, prepared) <==> Completable(signers, prepared)
  {
    if Completable(signers, prepared) {
      forall candidate: Bytes, signature: Bytes
        ensures Matches(prepared, candidate, signature) <==> Complete(signers, prepared, signature) == Some(candidate)
      {
        MatchesExactlyTheCompletion(signers, prepared, candidate, signature);
      }
    } else {
      var candidate := Filled(prepared);
      FilledMatches(prepared);
      var signature := Slot(candidate, DecodeHeader(prepared).value.offset, 0);
      if Complete(signers, prepared, signature) == Some(candidate) {
        CompletedHeader(signers, prepared, candidate, signature);
      }
    }
  }

  /** The prepared bytes with every empty slot filled by ones. */
  function Filled(prepared: Bytes): (r: Bytes)
    requires Envelope(prepared)
    ensures |r| == |prepared|
  {
    var h := DecodeHeader(prepared).value;
    seq(|prepared|, k requires 0 <= k < |prepared| =>
      if h.offset <= k < h.offset + 64 * h.value && IsZero(Slot(prepared, h.offset, (k - h.offset) / 64)) then 1
      else prepared[k])
  }

  lemma FilledMatches(prepared: Bytes)
    requires Envelope(prepared)
    ensures Matches(prepared, Filled(prepared), Slot(Filled(prepared), DecodeHeader(prepared).value.offset, 0))
  {
    var h := DecodeHeader(prepared).value;
    var candidate := Filled(prepared);
    assert candidate[..h.offset] == prepared[..h.offset];
    HeaderSurvives(prepared, candidate, 3);
    assert candidate[h.offset + 64 * h.value..] == prepared[h.offset + 64 * h.value..];
    forall i | 0 <= i < h.value ensures SlotMatches(Slot(prepared, h.offset, i), Slot(candidate, h.offset, i)) {
      FilledSlot(prepared, i);
    }
  }

  lemma FilledSlot(prepared: Bytes, i: nat)
    requires Envelope(prepared) && i < DecodeHeader(prepared).value.value
    ensures var offset := DecodeHeader(prepared).value.offset;
      SlotMatches(Slot(prepared, offset, i), Slot(Filled(prepared), offset, i))
  {
    var h := DecodeHeader(prepared).value;
    var before, after := Slot(prepared, h.offset, i), Slot(Filled(prepared), h.offset, i);
    forall k | 0 <= k < 64 ensures after[k] == if IsZero(before) then 1 else before[k] {
      var position := h.offset + 64 * i + k;
      assert (position - h.offset) / 64 == i;
      assert after[k] == Filled(prepared)[position] && before[k] == prepared[position];
    }
    assert IsZero(before) ==> after[0] == 1;
    assert !IsZero(before) ==> after == before;
  }

  /** Matching bytes that are a completion show that the prepared header was canonical. */
  lemma CompletedHeader(signers: Signers, prepared: Bytes, candidate: Bytes, signature: Bytes)
    requires Envelope(prepared) && |signature| == 64
    requires Matches(prepared, candidate, signature) && Complete(signers, prepared, signature) == Some(candidate)
    ensures Completable(signers, prepared)
  {
    var h := DecodeHeader(prepared).value;
    CompletionShape(signers, prepared, signature);
    var rest := signature + prepared[h.offset + 64..];
    assert candidate == CompactU16(h.value) + rest;
    EncodedHeaderDecodes(h.value, rest);
    HeaderBytesAreDetermined(prepared, candidate, 3);
  }

  lemma MatchingBytes(prepared: Bytes, candidate: Bytes, signature: Bytes)
    requires Envelope(prepared) && OnlyFeePayerMissing(prepared) && Matches(prepared, candidate, signature)
    ensures var h := DecodeHeader(prepared).value;
      candidate == candidate[..h.offset] + signature + prepared[h.offset + 64..]
  {
    var h := DecodeHeader(prepared).value;
    var rebuilt := candidate[..h.offset] + signature + prepared[h.offset + 64..];
    assert |rebuilt| == |candidate|;
    forall k | 0 <= k < |candidate| ensures candidate[k] == rebuilt[k] {
      if h.offset + 64 <= k < h.offset + 64 * h.value {
        var i := (k - h.offset) / 64;
        assert SlotMatches(Slot(prepared, h.offset, i), Slot(candidate, h.offset, i));
        assert Slot(candidate, h.offset, i)[k - h.offset - 64 * i]
          == Slot(prepared, h.offset, i)[k - h.offset - 64 * i];
      } else if k < h.offset + 64 {
        assert k >= h.offset ==> Slot(candidate, h.offset, 0)[k - h.offset] == candidate[k];
      } else {
        assert prepared[h.offset + 64 * h.value..][k - h.offset - 64 * h.value] == prepared[k];
        assert candidate[h.offset + 64 * h.value..][k - h.offset - 64 * h.value] == candidate[k];
      }
    }
  }

  /** Filling the first slot moves no other slot. */
  lemma LaterSlotKept(prepared: Bytes, offset: nat, count: nat, signature: Bytes, header: Bytes, i: nat)
    requires offset + 64 * count <= |prepared| && |signature| == 64 && |header| == offset && 1 <= i < count
    ensures Slot(header + signature + prepared[offset + 64..], offset, i) == Slot(prepared, offset, i)
  {
    var candidate := header + signature + prepared[offset + 64..];
    forall k | 0 <= k < 64 ensures Slot(candidate, offset, i)[k] == Slot(prepared, offset, i)[k] {
      assert candidate[offset + 64 * i + k] == prepared[offset + 64..][64 * i + k - 64];
    }
  }

  lemma CompletionMatches(signers: Signers, prepared: Bytes, candidate: Bytes, signature: Bytes)
    requires Envelope(prepared) && Completable(signers, prepared)
    requires |signature| == 64 && Complete(signers, prepared, signature) == Some(candidate)
    ensures Matches(prepared, candidate, signature)
  {
    var h := DecodeHeader(prepared).value;
    CompletionShape(signers, prepared, signature);
    assert candidate == CompactU16(h.value) + (signature + prepared[h.offset + 64..]);
    EncodedHeaderDecodes(h.value, signature + prepared[h.offset + 64..]);
    assert h.offset == |CompactU16(h.value)|;
    forall i | 0 <= i < h.value ensures SlotMatches(Slot(prepared, h.offset, i), Slot(candidate, h.offset, i)) {
      if i == 0 {
        assert Slot(candidate, h.offset, 0) == signature;
      } else {
        LaterSlotKept(prepared, h.offset, h.value, signature, CompactU16(h.value), i);
      }
    }
    assert prepared[h.offset + 64 * h.value..] == candidate[h.offset + 64 * h.value..];
  }

  /** With another slot still empty the gateway refuses every receipt. */
  lemma NoCompletionWithMissingSigner(signers: Signers, prepared: Bytes, signature: Bytes)
    requires Envelope(prepared) && !OnlyFeePayerMissing(prepared)
    ensures Complete(signers, prepared, signature).None?
  {
    if |signature| == 64 {
      CompletionShape(signers, prepared, signature);
    }
  }

  /** ... while the matcher still accepts bytes that fill the empty slots. */
  lemma MatcherFillsMissingSigners(prepared: Bytes, candidate: Bytes)
    requires Envelope(prepared) && !OnlyFeePayerMissing(prepared)
    requires var h := DecodeHeader(prepared).value;
      && |candidate| == |prepared| && candidate[..h.offset] == prepared[..h.offset]
      && candidate[h.offset + 64 * h.value..] == prepared[h.offset + 64 * h.value..]
      && (forall i :: 0 <= i < h.value ==> SlotMatches(Slot(prepared, h.offset, i), Slot(candidate, h.offset, i)))
    ensures Matches(prepared, candidate, Slot(candidate, DecodeHeader(prepared).value.offset, 0))
  {
    HeaderSurvives(prepared, candidate, 3);
  }

  /** The header depends on its own bytes only. */
  lemma {:induction false} HeaderSurvives(p: Bytes, c: Bytes, limit: nat)
    requires ShortVec(p, limit).Some? && ShortVec(p, limit).value.offset <= |c|
    requires p[..ShortVec(p, limit).value.offset] == c[..ShortVec(p, limit).value.offset]
    ensures ShortVec(c, limit) == ShortVec(p, limit)
    decreases limit
  {
    var n := ShortVec(p, limit).value.offset;
    assert c[0] == c[..n][0] == p[..n][0] == p[0];
    if p[0] >= 128 {
      assert p[1..][..n - 1] == p[..n][1..] && c[1..][..n - 1] == c[..n][1..];
      HeaderSurvives(p[1..], c[1..], limit - 1);
    }
  }

  /** A match never crosses messages: what landed carries exactly the prepared message. */
  lemma MatchKeepsMessage(prepared: Bytes, candidate: Bytes, signature: Bytes)
    requires Envelope(prepared) && Matches(prepared, candidate, signature)
    ensures Envelope(candidate) && MessageOf(candidate) == MessageOf(prepared)
  {
  }

  /** A fully signed prepared transaction is known by its first signature. */
  function KnownSignature(bytes: Bytes): Option<Bytes>
    requires Envelope(bytes)
  {
    var h := DecodeHeader(bytes).value;
    if exists i :: 0 <= i < h.value && IsZero(Slot(bytes, h.offset, i)) then None
    else Some(Slot(bytes, h.offset, 0))
  }

  method FullySignedTransactionSignature(bytes: Bytes) returns (signature: Option<Bytes>)
    requires Envelope(bytes)
    ensures signature == KnownSignature(bytes)
  {
    var header := DecodeShortVec(bytes);
    var count: nat, offset: nat := header.value.value, header.value.offset;
    var index := 0;
    while index < count
      invariant 0 <= index <= count
      invariant forall i :: 0 <= i < index ==> !IsZero(Slot(bytes, offset, i))
    {
      if IsZero(Slot(bytes, offset, index)) {
        return None;
      }
      index := index + 1;
    }
    return Some(Slot(bytes, offset, 0));
  }

  // ---- signatures ----

  /** The one signature of the i-th signer under a message; signing is deterministic. */
  type Signing = (Bytes, nat) -> Bytes

  /** Every slot holds its signer's signature or, where not yet signed, nothing. */
  predicate PartlySigned(signers: Signers, signing: Signing, bytes: Bytes)
    requires Envelope(bytes)
  {
    var h, message := DecodeHeader(bytes).value, MessageOf(bytes);
    && CanonicalHeader(bytes) && Decodable(signers, bytes)
    && forall i :: 0 <= i < h.value ==>
         IsZero(Slot(bytes, h.offset, i)) || Slot(bytes, h.offset, i) == signing(message, i)
  }

  predicate FullySigned(signers: Signers, signing: Signing, bytes: Bytes)
    requires Envelope(bytes)
  {
    var h := DecodeHeader(bytes).value;
    PartlySigned(signers, signing, bytes) && forall i :: 0 <= i < h.value ==> !IsZero(Slot(bytes, h.offset, i))
  }

  /** Whatever landed with the prepared message matches the prepared bytes, however many slots were empty. */
  lemma SignedMatches(signers: Signers, signing: Signing, prepared: Bytes, landed: Bytes)
    requires Envelope(prepared) && Envelope(landed) && MessageOf(prepared) == MessageOf(landed)
    requires PartlySigned(signers, signing, prepared) && FullySigned(signers, signing, landed)
    ensures Matches(prepared, landed, Slot(landed, DecodeHeader(landed).value.offset, 0))
  {
    var h, g := DecodeHeader(prepared).value, DecodeHeader(landed).value;
    assert |prepared[..h.offset]| == |landed[..g.offset]|;
    assert |prepared| == h.offset + 64 * h.value + |MessageOf(prepared)|;
    assert |landed| == g.offset + 64 * g.value + |MessageOf(landed)|;
    forall i | 0 <= i < h.value ensures SlotMatches(Slot(prepared, h.offset, i), Slot(landed, h.offset, i)) {
      assert Slot(landed, g.offset, i) == signing(MessageOf(landed), i);
    }
  }
}
