/**
 * The settlement invoice as the worker builds and re-validates it
 * (agent-orchestrator/src/settlement-invoice.ts). An exception is `false` or
 * None; the digest is a parameter.
 */
module Invoice {
  import opened Wrappers
  import opened Sorting
  import opened Sums
  import opened CanonicalJson
  import opened Decimal

  const MAX_SAFE_INTEGER: int := 0x1f_ffff_ffff_ffff

  datatype LineItem = LineItem(
    quoteId: Text,
    documentHandle: Text,
    documentHash: Text,
    documentVersion: nat,
    consentVersion: Text,
    recipientWallet: Text,
    amount: Text,
    ownerAmount: Text,
    platformAmount: Text)

  datatype Resource = Resource(
    quoteId: Text,
    documentHandle: Text,
    contentHash: Text,
    documentVersion: nat,
    consentVersion: Text,
    recipientWallet: Text,
    amount: Text,
    ownerAmount: Text,
    platformAmount: Text,
    expiresAt: int)

  datatype Invoice = Invoice(
    scheme: Text,
    settlementMode: Text,
    jobId: Text,
    payer: Text,
    authorization: Text,
    refundAddress: Text,
    queryHash: Text,
    documentBundleRoot: Text,
    network: Text,
    asset: Text,
    totalAmount: Text,
    platformFee: Text,
    expiresAt: int,
    deliveryPolicy: Text,
    lineItems: seq<LineItem>)

  datatype Plan = Plan(
    id: Text, payer: Text, payTo: Text, network: Text, asset: Text,
    resources: seq<Resource>, invoice: Invoice, invoiceHash: Text)

  /** An ASCII literal as UTF-16 code units. */
  function Ascii(s: string): (t: Text)
    ensures |t| == |s|
    ensures forall i :: 0 <= i < |s| ==> t[i] < 128 && (s[i] < 128 as char ==> t[i] == s[i] as int)
  {
    seq(|s|, i requires 0 <= i < |s| => if s[i] < 128 as char then s[i] as int else 0x3f)
  }

  function Scheme(): Text { Ascii("obulus-settlement-v1") }

  function HostedPaySh(): Text { Ascii("hosted_pay_sh") }

  function PaidSnapshotOnly(): Text { Ascii("paid_snapshot_only") }

  predicate HexDigest(t: Text) {
    |t| == 64 && forall i :: 0 <= i < 64 ==> IsDigit(t[i]) || 0x61 <= t[i] <= 0x66
  }

  /** The bytes in lower-case hexadecimal digits. */
  function HexOf(bytes: seq<nat>): (t: Text)
    requires forall i :: 0 <= i < |bytes| ==> bytes[i] < 256
    ensures |t| == 2 * |bytes|
  {
    seq(2 * |bytes|, k requires 0 <= k < 2 * |bytes| =>
      HexDigit(if k % 2 == 0 then bytes[k / 2] / 16 else bytes[k / 2] % 16))
  }

  function DigitValue(u: Unit): (d: nat)
    requires IsDigit(u) || 0x61 <= u <= 0x66
    ensures d < 16 && HexDigit(d) == u
  {
    if IsDigit(u) then u - 0x30 else u - 0x61 + 10
  }

  ghost predicate Writes(t: Text, bytes: seq<nat>) {
    |bytes| == 32 && (forall i :: 0 <= i < 32 ==> bytes[i] < 256) && t == HexOf(bytes)
  }

  lemma DigitsAt(bytes: seq<nat>, k: nat)
    requires (forall i :: 0 <= i < |bytes| ==> bytes[i] < 256) && k < 2 * |bytes|
    ensures HexOf(bytes)[k] == HexDigit(if k % 2 == 0 then bytes[k / 2] / 16 else bytes[k / 2] % 16)
    ensures IsDigit(HexOf(bytes)[k]) || 0x61 <= HexOf(bytes)[k] <= 0x66
  {
  }

  function ByteAt(t: Text, i: nat): (b: nat)
    requires HexDigest(t) && i < 32
    ensures b < 256 && HexDigit(b / 16) == t[2 * i] && HexDigit(b % 16) == t[2 * i + 1]
  {
    16 * DigitValue(t[2 * i]) + DigitValue(t[2 * i + 1])
  }

  /** The texts that pass as digests are how 32 bytes are written. */
  lemma HexDigestExactly(t: Text)
    ensures HexDigest(t) <==> exists bytes :: Writes(t, bytes)
  {
    if HexDigest(t) {
      var bytes: seq<nat> := seq(32, i requires 0 <= i < 32 => ByteAt(t, i));
      hide HexDigit, ByteAt, HexOf;
      forall k | 0 <= k < 64 ensures HexOf(bytes)[k] == t[k] {
        DigitsAt(bytes, k);
        assert k == 2 * (k / 2) + k % 2;
      }
      assert HexOf(bytes) == t;
      assert Writes(t, bytes);
    }
    if bytes :| Writes(t, bytes) {
      hide HexDigit, HexOf;
      forall k | 0 <= k < 64 ensures IsDigit(t[k]) || 0x61 <= t[k] <= 0x66 {
        DigitsAt(bytes, k);
      }
    }
  }

  function LineOf(r: Resource): LineItem {
    LineItem(r.quoteId, r.documentHandle, r.contentHash, r.documentVersion, r.consentVersion,
             r.recipientWallet, r.amount, r.ownerAmount, r.platformAmount)
  }

  function Lines(resources: seq<Resource>): (r: seq<LineItem>)
    ensures |r| == |resources| && forall i :: 0 <= i < |r| ==> r[i] == LineOf(resources[i])
  {
    seq(|resources|, i requires 0 <= i < |resources| => LineOf(resources[i]))
  }

  function Amount(t: Text): nat {
    if ParseAtomic(t).Some? then ParseAtomic(t).value else 0
  }

  function AmountOf(item: LineItem): nat { Amount(item.amount) }

  function FeeOf(item: LineItem): nat { Amount(item.platformAmount) }

  predicate WellSplit(item: LineItem) {
    && HexDigest(item.documentHash)
    && ParseAtomic(item.amount).Some? && ParseAtomic(item.ownerAmount).Some? && ParseAtomic(item.platformAmount).Some?
    && Amount(item.amount) > 0
    && Amount(item.ownerAmount) + Amount(item.platformAmount) == Amount(item.amount)
  }

  predicate AllSplit(items: seq<LineItem>) {
    forall x :: x in items ==> WellSplit(x)
  }

  /** The ceiling of a tenth of the total, or one unit per line when that is more. */
  function FeeCeiling(total: nat, lines: nat): (r: nat)
    ensures lines <= r && total <= 10 * r && (r == lines || 10 * (r - 1) < total)
  {
    var percentage := (total * 1000 + 9999) / 10000;
    if percentage > lines then percentage else lines
  }

  ghost predicate DistinctQuotes(resources: seq<Resource>) {
    forall i, j :: 0 <= i < j < |resources| ==> resources[i].quoteId != resources[j].quoteId
  }

  predicate HeaderMatches(plan: Plan, hash: Invoice -> Text) {
    var invoice := plan.invoice;
    && invoice.scheme == Scheme()
    && invoice.settlementMode == HostedPaySh()
    && invoice.jobId == plan.id
    && invoice.payer == plan.payer
    && invoice.authorization == plan.payTo
    && invoice.refundAddress == plan.payer
    && invoice.network == plan.network
    && invoice.asset == plan.asset
    && invoice.deliveryPolicy == PaidSnapshotOnly()
    && HexDigest(invoice.queryHash)
    && HexDigest(invoice.documentBundleRoot)
    && 0 < invoice.expiresAt <= MAX_SAFE_INTEGER
    && hash(invoice) == plan.invoiceHash
  }

  /**
   * The agreement the worker needs, without any order or bookkeeping: the line
   * items are the pending resources, each once, all split well, and the two
   * totals are theirs.
   */
  ghost predicate Agrees(plan: Plan, hash: Invoice -> Text) {
    var lines := Lines(plan.resources);
    var total, fee := SumOf(lines, AmountOf), SumOf(lines, FeeOf);
    && HeaderMatches(plan, hash)
    && DistinctQuotes(plan.resources)
    && multiset(plan.invoice.lineItems) == multiset(lines)
    && AllSplit(lines)
    && plan.invoice.totalAmount == Printed(total)
    && plan.invoice.platformFee == Printed(fee)
    && fee <= FeeCeiling(total, |lines|)
  }

  // ---- the map of pending resources ----

  /** A later resource with the same quote replaces an earlier one. */
  function ById(resources: seq<Resource>): map<Text, Resource> {
    if |resources| == 0 then map[]
    else
      var last := resources[|resources| - 1];
      ById(resources[..|resources| - 1])[last.quoteId := last]
  }

  predicate HasQuote(resources: seq<Resource>, id: Text) {
    exists i :: 0 <= i < |resources| && resources[i].quoteId == id
  }

  lemma {:induction false} ByIdFinds(resources: seq<Resource>, id: Text)
    ensures id in ById(resources) <==> HasQuote(resources, id)
    ensures id in ById(resources) ==> ById(resources)[id].quoteId == id && ById(resources)[id] in resources
  {
    if |resources| > 0 {
      var init, last := resources[..|resources| - 1], resources[|resources| - 1];
      ByIdFinds(init, id);
      QuoteSplits(init, last, id);
      assert init + [last] == resources;
    }
  }

  lemma QuoteSplits(init: seq<Resource>, last: Resource, id: Text)
    ensures HasQuote(init + [last], id) <==> HasQuote(init, id) || last.quoteId == id
  {
    var all := init + [last];
    if HasQuote(init, id) {
      var i :| 0 <= i < |init| && init[i].quoteId == id;
      assert all[i].quoteId == id;
    }
    assert all[|init|] == last;
  }

  lemma DistinctSplits(init: seq<Resource>, last: Resource)
    ensures DistinctQuotes(init + [last]) <==> DistinctQuotes(init) && !HasQuote(init, last.quoteId)
  {
    var all := init + [last];
    assert forall i :: 0 <= i < |init| ==> all[i] == init[i];
    assert all[|init|] == last;
    if DistinctQuotes(all) {
      forall i, j | 0 <= i < j < |init| ensures init[i].quoteId != init[j].quoteId {
        assert all[i].quoteId != all[j].quoteId;
      }
      forall i | 0 <= i < |init| ensures init[i].quoteId != last.quoteId {
        assert all[i].quoteId != all[|init|].quoteId;
      }
    }
  }

  /** The size check of the original sees exactly the repeated quotes. */
  lemma {:induction false} SizeTellsDistinct(resources: seq<Resource>)
    ensures |ById(resources)| <= |resources|
    ensures |ById(resources)| == |resources| <==> DistinctQuotes(resources)
  {
    if |resources| > 0 {
      var init, last := resources[..|resources| - 1], resources[|resources| - 1];
      hide DistinctQuotes, HasQuote;
      SizeTellsDistinct(init);
      ByIdFinds(init, last.quoteId);
      DistinctSplits(init, last);
      assert init + [last] == resources;
    }
  }

  lemma DistinctLookup(resources: seq<Resource>, i: nat)
    requires DistinctQuotes(resources) && i < |resources|
    ensures resources[i].quoteId in ById(resources) && ById(resources)[resources[i].quoteId] == resources[i]
  {
    hide ById;
    ByIdFinds(resources, resources[i].quoteId);
    assert HasQuote(resources, resources[i].quoteId);
    var r := ById(resources)[resources[i].quoteId];
    var j :| 0 <= j < |resources| && resources[j] == r;
    assert i == j;
  }

  predicate ItemMatches(byId: map<Text, Resource>, item: LineItem) {
    item.quoteId in byId && item == LineOf(byId[item.quoteId])
  }

  ghost predicate DistinctItems(items: seq<LineItem>) {
    forall i, j :: 0 <= i < j < |items| ==> items[i].quoteId != items[j].quoteId
  }

  /** A one-to-one correspondence, read off item by item. */
  lemma CorrespondenceByItems(resources: seq<Resource>, items: seq<LineItem>)
    requires DistinctQuotes(resources) && |items| == |resources|
    ensures multiset(items) == multiset(Lines(resources)) <==>
      DistinctItems(items) && forall i :: 0 <= i < |items| ==> ItemMatches(ById(resources), items[i])
  {
    hide ById;
    var lines := Lines(resources);
    LinesDoNotRepeat(resources);
    if multiset(items) == multiset(lines) {
      ItemsOfPermutation(resources, items);
    } else if DistinctItems(items) && forall i :: 0 <= i < |items| ==> ItemMatches(ById(resources), items[i]) {
      assert NoRepeats(items);
      forall x | x in items ensures x in lines {
        ByIdFinds(resources, x.quoteId);
        var r := ById(resources)[x.quoteId];
        var i :| 0 <= i < |resources| && resources[i] == r;
        assert lines[i] == x;
      }
      SameSizeSameElements(items, lines);
    }
  }

  lemma LinesDoNotRepeat(resources: seq<Resource>)
    requires DistinctQuotes(resources)
    ensures NoRepeats(Lines(resources))
  {
    var lines := Lines(resources);
    forall i, j | 0 <= i < j < |lines| ensures lines[i] != lines[j] {
      assert resources[i].quoteId != resources[j].quoteId;
    }
  }

  lemma ItemsOfPermutation(resources: seq<Resource>, items: seq<LineItem>)
    requires DistinctQuotes(resources) && multiset(items) == multiset(Lines(resources))
    ensures DistinctItems(items) && forall i :: 0 <= i < |items| ==> ItemMatches(ById(resources), items[i])
  {
    hide ById;
    var lines := Lines(resources);
    LinesDoNotRepeat(resources);
    forall i | 0 <= i < |items| ensures ItemMatches(ById(resources), items[i]) {
      assert items[i] in multiset(lines);
      var k :| 0 <= k < |lines| && lines[k] == items[i];
      DistinctLookup(resources, k);
    }
    PermutationDoesNotRepeat(items, lines);
    forall i, j | 0 <= i < j < |items| ensures items[i].quoteId != items[j].quoteId {
      assert ItemMatches(ById(resources), items[i]) && ItemMatches(ById(resources), items[j]);
      assert items[i] != items[j];
    }
  }

  lemma PermutationDoesNotRepeat(a: seq<LineItem>, b: seq<LineItem>)
    requires NoRepeats(b) && multiset(a) == multiset(b)
    ensures NoRepeats(a)
  {
    forall i, j | 0 <= i < j < |a| ensures a[i] != a[j] {
      OnceEach(b, a[j]);
      assert a == a[..j] + a[j..];
      assert a[i] in a[..j] && a[j] in a[j..];
    }
  }

  lemma SameSizeSameElements(a: seq<LineItem>, b: seq<LineItem>)
    requires NoRepeats(a) && NoRepeats(b) && |a| == |b| && forall x :: x in a ==> x in b
    ensures multiset(a) == multiset(b)
  {
    forall x: LineItem ensures multiset(a)[x] <= multiset(b)[x] {
      OnceEach(a, x);
      OnceEach(b, x);
    }
    assert multiset(b) == multiset(a) + (multiset(b) - multiset(a));
    assert |multiset(b) - multiset(a)| == 0;
  }

  // ---- the validator ----

  predicate LineItemValid(item: LineItem, r: Resource) {
    && item.documentHandle == r.documentHandle
    && item.documentHash == r.contentHash
    && item.documentVersion == r.documentVersion
    && item.consentVersion == r.consentVersion
    && item.recipientWallet == r.recipientWallet
    && item.amount == r.amount
    && item.ownerAmount == r.ownerAmount
    && item.platformAmount == r.platformAmount
    && WellSplit(item)
  }

  /** The pending total, None when an amount does not parse. */
  function PendingTotal(resources: seq<Resource>): Option<nat> {
    if exists i :: 0 <= i < |resources| && ParseAtomic(resources[i].amount).None? then None
    else Some(SumOf(Lines(resources), AmountOf))
  }

  /** What the early checks of the validator look at follows from the agreement. */
  lemma AgreementAddsUp(plan: Plan, hash: Invoice -> Text)
    requires Agrees(plan, hash)
    ensures var lines := Lines(plan.resources);
      && ParseAtomic(plan.invoice.totalAmount) == PendingTotal(plan.resources) == Some(SumOf(lines, AmountOf))
      && ParseAtomic(plan.invoice.platformFee) == Some(SumOf(lines, FeeOf))
      && |plan.invoice.lineItems| == |plan.resources|
  {
    var lines := Lines(plan.resources);
    ParsesExactlyThePrinted(plan.invoice.totalAmount, SumOf(lines, AmountOf));
    ParsesExactlyThePrinted(plan.invoice.platformFee, SumOf(lines, FeeOf));
    assert |multiset(plan.invoice.lineItems)| == |multiset(lines)|;
    forall i | 0 <= i < |plan.resources| ensures ParseAtomic(plan.resources[i].amount).Some? {
      assert WellSplit(lines[i]);
    }
  }

  function QuoteIds(items: seq<LineItem>): set<Text> {
    set i | 0 <= i < |items| :: items[i].quoteId
  }

  lemma NextQuoteId(items: seq<LineItem>, i: nat)
    requires i < |items|
    ensures QuoteIds(items[..i + 1]) == QuoteIds(items[..i]) + {items[i].quoteId}
    ensures items[i].quoteId in QuoteIds(items[..i]) ==> !DistinctItems(items)
    ensures DistinctItems(items[..i]) && items[i].quoteId !in QuoteIds(items[..i]) ==> DistinctItems(items[..i + 1])
  {
    assert items[..i + 1] == items[..i] + [items[i]];
    if items[i].quoteId in QuoteIds(items[..i]) {
      var j :| 0 <= j < i && items[..i][j].quoteId == items[i].quoteId;
      assert items[j].quoteId == items[i].quoteId;
    } else if DistinctItems(items[..i]) {
      var next, earlier := items[..i + 1], items[..i];
      forall k, j | 0 <= k < j < |next| ensures next[k].quoteId != next[j].quoteId {
        assert earlier[k].quoteId in QuoteIds(earlier);
        if j < i {
          assert earlier[k].quoteId != earlier[j].quoteId;
        }
      }
    }
  }

  predicate ItemAccepted(resources: map<Text, Resource>, item: LineItem) {
    ItemMatches(resources, item) && WellSplit(item)
  }

  /** What the items are to be, for the loop to run through with nothing left over. */
  ghost predicate Corresponds(items: seq<LineItem>, resources: map<Text, Resource>) {
    && DistinctItems(items) && |items| == |resources|
    && forall i :: 0 <= i < |items| ==> ItemAccepted(resources, items[i])
  }

  /** The first `i` items took their own resources out of the map. */
  ghost predicate Taken(items: seq<LineItem>, resources: map<Text, Resource>, i: nat, remaining: map<Text, Resource>)
    requires i <= |items|
  {
    && remaining == resources - QuoteIds(items[..i]) && |remaining| == |resources| - i
    && DistinctItems(items[..i])
    && forall j :: 0 <= j < i ==> ItemAccepted(resources, items[j])
  }

  lemma TakenNext(items: seq<LineItem>, resources: map<Text, Resource>, i: nat, remaining: map<Text, Resource>)
    requires i < |items| && Taken(items, resources, i, remaining)
    requires forall id :: id in resources ==> resources[id].quoteId == id
    ensures var item := items[i];
      if item.quoteId in remaining && LineItemValid(item, remaining[item.quoteId])
      then Taken(items, resources, i + 1, remaining - {item.quoteId})
      else !Corresponds(items, resources)
  {
    hide DistinctItems, QuoteIds, ItemAccepted, LineItemValid;
    var item := items[i];
    NextQuoteId(items, i);
    LineItemChecks(resources, item);
    if item.quoteId in remaining {
      TakeOne(resources, QuoteIds(items[..i]), item.quoteId);
    }
  }

  lemma TakenFirst(items: seq<LineItem>, resources: map<Text, Resource>)
    ensures Taken(items, resources, 0, resources)
  {
    assert items[..0] == [];
  }

  lemma TakenAll(items: seq<LineItem>, resources: map<Text, Resource>, remaining: map<Text, Resource>)
    requires Taken(items, resources, |items|, remaining)
    ensures |remaining| == 0 <==> Corresponds(items, resources)
  {
    assert items[..|items|] == items;
  }

  /** The deletion loop: every item takes its own resource out of the map. */
  method MatchItems(items: seq<LineItem>, resources: map<Text, Resource>)
    returns (matched: bool, invoiceTotal: nat, invoicePlatformFee: nat)
    requires forall id :: id in resources ==> resources[id].quoteId == id
    ensures matched <==> Corresponds(items, resources)
    ensures matched ==> invoiceTotal == SumOf(items, AmountOf) && invoicePlatformFee == SumOf(items, FeeOf)
  {
    hide AmountOf, FeeOf, SumOf, Corresponds, Taken, LineItemValid;
    var remaining := resources;
    matched, invoiceTotal, invoicePlatformFee := false, 0, 0;
    var i := 0;
    TakenFirst(items, resources);
    SumOfNothing(items, AmountOf);
    SumOfNothing(items, FeeOf);
    while i < |items|
      invariant 0 <= i <= |items| && !matched
      invariant Taken(items, resources, i, remaining)
      invariant invoiceTotal == SumOf(items[..i], AmountOf) && invoicePlatformFee == SumOf(items[..i], FeeOf)
    {
      var item := items[i];
      TakenNext(items, resources, i, remaining);
      if item.quoteId !in remaining {
        return;
      }
      if !LineItemValid(item, remaining[item.quoteId]) {
        return;
      }
      SumOfNext(items, i, AmountOf);
      SumOfNext(items, i, FeeOf);
      invoiceTotal := invoiceTotal + AmountOf(item);
      invoicePlatformFee := invoicePlatformFee + FeeOf(item);
      remaining := remaining - {item.quoteId};
      i := i + 1;
    }
    TakenAll(items, resources, remaining);
    assert items[..i] == items;
    matched := |remaining| == 0;
  }

  lemma TakeOne(resources: map<Text, Resource>, taken: set<Text>, id: Text)
    requires id in resources && id !in taken
    ensures var remaining := resources - taken;
      remaining - {id} == resources - (taken + {id}) && |remaining - {id}| == |remaining| - 1
  {
    var remaining := resources - taken;
    var after := remaining - {id};
    assert after[id := remaining[id]] == remaining;
  }

  lemma LineItemChecks(resources: map<Text, Resource>, item: LineItem)
    requires forall id :: id in resources ==> resources[id].quoteId == id
    ensures ItemAccepted(resources, item)
      <==> item.quoteId in resources && LineItemValid(item, resources[item.quoteId])
  {
  }

  /** Checking the splits of the items is checking the splits of the resources. */
  lemma SplitEitherWay(items: seq<LineItem>, lines: seq<LineItem>)
    requires multiset(items) == multiset(lines)
    ensures AllSplit(items) <==> AllSplit(lines)
  {
    forall x | x in items ensures x in lines {
      assert x in multiset(items);
    }
    forall x | x in lines ensures x in items {
      assert x in multiset(lines);
    }
  }

  /** The validator accepts exactly the agreement; its own line total check can never be what refuses. */
  method ValidateSettlementInvoice(plan: Plan, hash: Invoice -> Text) returns (ok: bool)
    ensures ok <==> Agrees(plan, hash)
  {
    var invoice := plan.invoice;
    if !HeaderMatches(plan, hash) {
      return false;
    }
    var total, platformFee := ParseAtomic(invoice.totalAmount), ParseAtomic(invoice.platformFee);
    var pendingTotal := PendingTotal(plan.resources);
    if total.Some? { ParsesExactlyThePrinted(invoice.totalAmount, total.value); }
    if platformFee.Some? { ParsesExactlyThePrinted(invoice.platformFee, platformFee.value); }
    if Agrees(plan, hash) { AgreementAddsUp(plan, hash); }
    if total.None? || platformFee.None? || pendingTotal.None? || total != pendingTotal {
      return false;
    }
    if platformFee.value > FeeCeiling(total.value, |invoice.lineItems|) {
      return false;
    }
    var resources := ById(plan.resources);
    SizeTellsDistinct(plan.resources);
    if |resources| != |plan.resources| || |invoice.lineItems| != |resources| {
      return false;
    }
    CorrespondenceByItems(plan.resources, invoice.lineItems);
    forall id | id in resources ensures resources[id].quoteId == id {
      ByIdFinds(plan.resources, id);
    }
    if multiset(invoice.lineItems) == multiset(Lines(plan.resources)) {
      SplitEitherWay(invoice.lineItems, Lines(plan.resources));
    }
    var matched, invoiceTotal, invoicePlatformFee := MatchItems(invoice.lineItems, resources);
    if !matched {
      return false;
    }
    SumOfPermutation(invoice.lineItems, Lines(plan.resources), AmountOf);
    SumOfPermutation(invoice.lineItems, Lines(plan.resources), FeeOf);
    return invoiceTotal == total.value && invoicePlatformFee == platformFee.value;
  }

  function OwnerShareOf(item: LineItem): nat { Amount(item.ownerAmount) }

  lemma {:induction false} SplitSums(items: seq<LineItem>)
    requires AllSplit(items)
    ensures SumOf(items, OwnerShareOf) + SumOf(items, FeeOf) == SumOf(items, AmountOf) >= |items|
  {
    if |items| > 0 {
      hide HexDigest, ParseAtomic;
      assert items[|items| - 1] in items && forall x :: x in items[..|items| - 1] ==> x in items;
      SplitSums(items[..|items| - 1]);
    }
  }

  /** Money is conserved: an accepted total is what the owners and the platform get, at least a unit for each line. */
  lemma AcceptedTotalIsShared(plan: Plan, hash: Invoice -> Text)
    requires Agrees(plan, hash)
    ensures ParseAtomic(plan.invoice.totalAmount).Some? && ParseAtomic(plan.invoice.platformFee).Some?
    ensures ParseAtomic(plan.invoice.totalAmount).value
      == SumOf(plan.invoice.lineItems, OwnerShareOf) + ParseAtomic(plan.invoice.platformFee).value
    ensures ParseAtomic(plan.invoice.totalAmount).value >= |plan.invoice.lineItems|
  {
    AgreementAddsUp(plan, hash);
    var lines := Lines(plan.resources);
    SplitSums(lines);
    SumOfPermutation(plan.invoice.lineItems, lines, OwnerShareOf);
  }

  // ---- the invoice the worker builds itself ----

  function EarliestExpiry(resources: seq<Resource>): int
    requires |resources| > 0
  {
    var last := resources[|resources| - 1].expiresAt;
    if |resources| == 1 then last
    else
      var earlier := EarliestExpiry(resources[..|resources| - 1]);
      if earlier < last then earlier else last
  }

  /** Built from a plan's own fields; None when an amount does not parse. */
  function CreateHosted(plan: Plan, queryHash: Text, documentBundleRoot: Text): Option<Invoice> {
    var lines := Lines(plan.resources);
    if exists x :: x in lines && (ParseAtomic(x.platformAmount).None? || ParseAtomic(x.amount).None?) then None
    else Some(Invoice(
      Scheme(), HostedPaySh(), plan.id, plan.payer, plan.payTo, plan.payer, queryHash, documentBundleRoot,
      plan.network, plan.asset, Printed(SumOf(lines, AmountOf)), Printed(SumOf(lines, FeeOf)),
      if |plan.resources| > 0 then EarliestExpiry(plan.resources) else 2_000_000_000_000,
      PaidSnapshotOnly(), lines))
  }

  /**
   * Whatever plan it is built from, the created invoice passes the validator
   * exactly when the plan itself is sound: distinct quotes, honest splits,
   * digests of the right form, a fee under the ceiling and a usable expiry.
   */
  lemma HostedInvoicePasses(plan: Plan, queryHash: Text, documentBundleRoot: Text, hash: Invoice -> Text)
    requires CreateHosted(plan, queryHash, documentBundleRoot).Some?
    ensures var invoice := CreateHosted(plan, queryHash, documentBundleRoot).value;
      var lines := Lines(plan.resources);
      Agrees(plan.(invoice := invoice, invoiceHash := hash(invoice)), hash) <==>
        && DistinctQuotes(plan.resources) && AllSplit(lines)
        && HexDigest(queryHash) && HexDigest(documentBundleRoot)
        && SumOf(lines, FeeOf) <= FeeCeiling(SumOf(lines, AmountOf), |lines|)
        && UsableExpiry(plan.resources)
  {
    if |plan.resources| > 0 {
      ExpiryIsUsable(plan.resources);
    }
    hide WellSplit, HexDigest, SumOf, FeeCeiling, UsableExpiry, EarliestExpiry, DistinctQuotes, Printed;
  }

  /** What the created invoice commits: its digests under their own names, and every resource at its own place. */
  lemma CreatedCommits(plan: Plan, queryHash: Text, documentBundleRoot: Text)
    requires CreateHosted(plan, queryHash, documentBundleRoot).Some?
    ensures var invoice := CreateHosted(plan, queryHash, documentBundleRoot).value;
      && invoice.queryHash == queryHash && invoice.documentBundleRoot == documentBundleRoot
      && invoice.payer == invoice.refundAddress == plan.payer && invoice.authorization == plan.payTo
      && |invoice.lineItems| == |plan.resources|
      && (forall i :: 0 <= i < |plan.resources| ==> LineItemRecords(invoice.lineItems[i], plan.resources[i]))
      && (forall r :: r in plan.resources ==> invoice.expiresAt <= r.expiresAt)
      && ParseAtomic(invoice.totalAmount) == Some(SumOf(plan.resources, (r: Resource) => Amount(r.amount)))
      && ParseAtomic(invoice.platformFee) == Some(SumOf(plan.resources, (r: Resource) => Amount(r.platformAmount)))
  {
    var lines := Lines(plan.resources);
    ParsesExactlyThePrinted(Printed(SumOf(lines, AmountOf)), SumOf(lines, AmountOf));
    ParsesExactlyThePrinted(Printed(SumOf(lines, FeeOf)), SumOf(lines, FeeOf));
    SumOfLines(plan.resources, AmountOf, (r: Resource) => Amount(r.amount));
    SumOfLines(plan.resources, FeeOf, (r: Resource) => Amount(r.platformAmount));
    if |plan.resources| > 0 {
      var r := EarliestIsLeast(plan.resources);
    }
    hide SumOf, Printed, ParseAtomic, EarliestExpiry;
  }

  /** The resource of a quote, with the snapshot, the recipient and the split it was offered for. */
  predicate LineItemRecords(item: LineItem, r: Resource) {
    && item.quoteId == r.quoteId && item.documentHandle == r.documentHandle
    && item.documentHash == r.contentHash && item.documentVersion == r.documentVersion
    && item.consentVersion == r.consentVersion && item.recipientWallet == r.recipientWallet
    && item.amount == r.amount && item.ownerAmount == r.ownerAmount && item.platformAmount == r.platformAmount
  }

  lemma {:induction false} SumOfLines(resources: seq<Resource>, f: LineItem -> nat, g: Resource -> nat)
    requires forall r: Resource :: f(LineOf(r)) == g(r)
    ensures SumOf(Lines(resources), f) == SumOf(resources, g)
  {
    if |resources| > 0 {
      SumOfLines(resources[..|resources| - 1], f, g);
      assert Lines(resources)[..|resources| - 1] == Lines(resources[..|resources| - 1]);
    }
  }

  /**
   * Acceptance against the construction: the accepted invoices of a sound plan
   * are the one the worker would build from the same digests, with its line
   * items in any order and any usable expiry, under the committed hash.
   */
  lemma AcceptedIsCreated(plan: Plan, hash: Invoice -> Text)
    ensures var invoice, lines := plan.invoice, Lines(plan.resources);
      var created := CreateHosted(plan, invoice.queryHash, invoice.documentBundleRoot);
      Agrees(plan, hash) <==>
        && created.Some?
        && invoice == created.value.(expiresAt := invoice.expiresAt, lineItems := invoice.lineItems)
        && multiset(invoice.lineItems) == multiset(created.value.lineItems)
        && 0 < invoice.expiresAt <= MAX_SAFE_INTEGER && hash(invoice) == plan.invoiceHash
        && HexDigest(invoice.queryHash) && HexDigest(invoice.documentBundleRoot)
        && DistinctQuotes(plan.resources) && AllSplit(lines)
        && SumOf(lines, FeeOf) <= FeeCeiling(SumOf(lines, AmountOf), |lines|)
  {
    var lines := Lines(plan.resources);
    if AllSplit(lines) {
      forall x | x in lines ensures ParseAtomic(x.platformAmount).Some? && ParseAtomic(x.amount).Some? {
        assert WellSplit(x);
      }
    }
    hide WellSplit, HexDigest, SumOf, FeeCeiling, EarliestExpiry, DistinctQuotes, Printed, ParseAtomic, AllSplit;
  }

  /** No pending quote is without an expiry, and the earliest one is an exact JavaScript integer. */
  ghost predicate UsableExpiry(resources: seq<Resource>) {
    && (forall r :: r in resources ==> r.expiresAt > 0)
    && (|resources| > 0 ==> exists r :: r in resources && r.expiresAt <= MAX_SAFE_INTEGER)
  }

  lemma ExpiryIsUsable(resources: seq<Resource>)
    requires |resources| > 0
    ensures UsableExpiry(resources) <==> 0 < EarliestExpiry(resources) <= MAX_SAFE_INTEGER
  {
    var r := EarliestIsLeast(resources);
    hide EarliestExpiry;
  }

  lemma {:induction false} EarliestIsLeast(resources: seq<Resource>) returns (r: Resource)
    requires |resources| > 0
    ensures r in resources && r.expiresAt == EarliestExpiry(resources)
    ensures forall x :: x in resources ==> EarliestExpiry(resources) <= x.expiresAt
  {
    var init, last := resources[..|resources| - 1], resources[|resources| - 1];
    assert resources == init + [last];
    if |resources| == 1 {
      r := last;
    } else {
      var earlier := EarliestIsLeast(init);
      assert EarliestExpiry(resources)
        == if EarliestExpiry(init) < last.expiresAt then EarliestExpiry(init) else last.expiresAt;
      hide EarliestExpiry;
      r := if earlier.expiresAt < last.expiresAt then earlier else last;
    }
  }
}
