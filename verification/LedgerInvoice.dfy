/**
 * The ledger's own validator of the same invoice (backend/src/settlement_invoice.rs):
 * 64-bit sums, a ceiling per line, and how it compares with the worker's.
 */
module LedgerInvoice {
  import opened Wrappers
  import opened Sums
  import opened CanonicalJson
  import opened Decimal
  import opened Invoice
  import opened InvoiceCommitment

  const U128_MAX: nat := 0xffff_ffff_ffff_ffff_ffff_ffff_ffff_ffff

  datatype InvoiceError =
    | MissingField
    | DuplicateQuote
    | InvalidAmount
    | AmountOverflow
    | TotalMismatch
    | PlatformFeeMismatch
    | PlatformFeeTooHigh

  /** Unicode white space, as `trim` takes it. */
  predicate White(u: Unit) {
    || 9 <= u <= 13 || u == 0x20 || u == 0x85 || u == 0xa0 || u == 0x1680 || 0x2000 <= u <= 0x200a
    || u == 0x2028 || u == 0x2029 || u == 0x202f || u == 0x205f || u == 0x3000
  }

  predicate Blank(t: Text) {
    forall i :: 0 <= i < |t| ==> White(t[i])
  }

  function Clamp(x: nat, low: nat, high: nat): nat {
    if x < low then low else if x > high then high else x
  }

  /** A tenth of the amount rounded up; the clamp that leaves the owner a unit only ever decides below two units. */
  function MaximumShare(amount: nat): (share: nat)
    ensures share <= amount && share == if amount < 2 then 0 else (amount + 9) / 10
  {
    if amount < 2 then 0 else Clamp((amount * 1000 + 9999) / 10000, 1, amount - 1)
  }

  predicate HeaderPresent(invoice: Invoice) {
    && !Blank(invoice.scheme) && !Blank(invoice.settlementMode) && !Blank(invoice.jobId) && !Blank(invoice.payer)
    && !Blank(invoice.authorization) && !Blank(invoice.refundAddress) && !Blank(invoice.queryHash)
    && !Blank(invoice.documentBundleRoot) && !Blank(invoice.network) && !Blank(invoice.asset)
    && !Blank(invoice.deliveryPolicy)
  }

  predicate LinePresent(item: LineItem) {
    && !Blank(item.quoteId) && !Blank(item.documentHandle) && !Blank(item.documentHash)
    && !Blank(item.consentVersion) && !Blank(item.recipientWallet)
  }

  function LedgerAmount(t: Text): (r: nat)
    ensures r <= U64_MAX
  {
    if ParseAmount(t).Some? then ParseAmount(t).value else 0
  }

  function LineAmount(item: LineItem): nat { LedgerAmount(item.amount) }

  function LineFee(item: LineItem): nat { LedgerAmount(item.platformAmount) }

  predicate LineAmountsParse(item: LineItem) {
    ParseAmount(item.amount).Some? && ParseAmount(item.ownerAmount).Some? && ParseAmount(item.platformAmount).Some?
  }

  predicate LineAddsUp(item: LineItem) {
    LineAmount(item) > 0 && LedgerAmount(item.ownerAmount) + LineFee(item) == LineAmount(item)
  }

  predicate FeeWithinShare(item: LineItem) {
    LineFee(item) <= MaximumShare(LineAmount(item))
  }

  predicate LineSound(item: LineItem) {
    LinePresent(item) && LineAmountsParse(item) && LineAddsUp(item) && FeeWithinShare(item)
  }

  /** What acceptance amounts to; no overflow, no aggregate ceiling and no empty-invoice clause is left. */
  ghost predicate LedgerAccepts(invoice: Invoice) {
    && HeaderPresent(invoice)
    && DistinctItems(invoice.lineItems)
    && (forall x :: x in invoice.lineItems ==> LineSound(x))
    && ParseAmount(invoice.totalAmount) == Some(SumOf(invoice.lineItems, LineAmount))
    && ParseAmount(invoice.platformFee) == Some(SumOf(invoice.lineItems, LineFee))
  }

  method Validate(invoice: Invoice) returns (r: Result<(), InvoiceError>)
    ensures r.Ok? <==> LedgerAccepts(invoice)
    ensures r == Err(PlatformFeeTooHigh) ==> exists x :: x in invoice.lineItems && !FeeWithinShare(x)
    ensures r == Err(AmountOverflow) ==> SumOf(invoice.lineItems, LineAmount) > U64_MAX
  {
    if !HeaderPresent(invoice) {
      return Err(MissingField);
    }
    var total, platformTotal := ParseAmount(invoice.totalAmount), ParseAmount(invoice.platformFee);
    if total.None? || platformTotal.None? {
      return Err(InvalidAmount);
    }
    var lines := ValidateLines(invoice.lineItems);
    if lines.Err? {
      return Err(lines.error);
    }
    var (lineTotal, linePlatformTotal, maximumPlatformTotal) := lines.value;
    return if lineTotal != total.value then Err(TotalMismatch)
      else if linePlatformTotal != platformTotal.value then Err(PlatformFeeMismatch)
      else if |invoice.lineItems| == 0 && (total.value != 0 || platformTotal.value != 0) then Err(TotalMismatch)
      else if platformTotal.value > maximumPlatformTotal then Err(PlatformFeeTooHigh)
      else Ok(());
  }

  /** The loop over the lines: the three running totals, or the first error. */
  method ValidateLines(items: seq<LineItem>) returns (r: Result<(nat, nat, nat), InvoiceError>)
    ensures r.Ok? <==>
      && DistinctItems(items) && (forall x :: x in items ==> LineSound(x))
      && SumOf(items, LineAmount) <= U64_MAX
    ensures r.Ok? ==>
      && r.value.0 == SumOf(items, LineAmount)
      && r.value.1 == SumOf(items, LineFee)
      && r.value.1 <= r.value.2
    ensures r == Err(PlatformFeeTooHigh) ==> exists x :: x in items && !FeeWithinShare(x)
    ensures r == Err(AmountOverflow) ==> SumOf(items, LineAmount) > U64_MAX
  {
    hide LinePresent, LineAmountsParse, SumOf, QuoteIds, DistinctItems, MaximumShare, ParseAmount;
    var lineTotal: nat, linePlatformTotal: nat, maximumPlatformTotal: nat := 0, 0, 0;
    var quoteIds: set<Text> := {};
    var i := 0;
    SumsStart(items);
    while i < |items|
      invariant 0 <= i <= |items|
      invariant quoteIds == QuoteIds(items[..i]) && DistinctItems(items[..i])
      invariant forall j :: 0 <= j < i ==> LineSound(items[j])
      invariant lineTotal == SumOf(items[..i], LineAmount) && linePlatformTotal == SumOf(items[..i], LineFee)
      invariant linePlatformTotal <= maximumPlatformTotal <= lineTotal <= U64_MAX
    {
      var item := items[i];
      NextQuoteId(items, i);
      SumOfNext(items, i, LineAmount);
      SumOfNext(items, i, LineFee);
      SumOfPrefix(items, i + 1, LineAmount);
      assert item in items;
      if !LinePresent(item) {
        return Err(MissingField);
      }
      if item.quoteId in quoteIds {
        return Err(DuplicateQuote);
      }
      quoteIds := quoteIds + {item.quoteId};
      if !LineAmountsParse(item) {
        return Err(InvalidAmount);
      }
      var amount, owner := LedgerAmount(item.amount), LedgerAmount(item.ownerAmount);
      var platform := LedgerAmount(item.platformAmount);
      if amount == 0 || owner + platform != amount {
        return Err(TotalMismatch);
      }
      var linePlatformCeiling := MaximumShare(amount);
      if platform > linePlatformCeiling {
        return Err(PlatformFeeTooHigh);
      }
      if maximumPlatformTotal + linePlatformCeiling > U128_MAX || lineTotal + amount > U64_MAX
         || linePlatformTotal + platform > U64_MAX {
        return Err(AmountOverflow);
      }
      maximumPlatformTotal := maximumPlatformTotal + linePlatformCeiling;
      lineTotal := lineTotal + amount;
      linePlatformTotal := linePlatformTotal + platform;
      i := i + 1;
    }
    assert items[..i] == items;
    return Ok((lineTotal, linePlatformTotal, maximumPlatformTotal));
  }

  lemma SumsStart(items: seq<LineItem>)
    ensures QuoteIds(items[..0]) == {} && DistinctItems(items[..0])
    ensures SumOf(items[..0], LineAmount) == 0 && SumOf(items[..0], LineFee) == 0
  {
  }

  lemma SumOfPrefix(items: seq<LineItem>, i: nat, f: LineItem -> nat)
    requires i <= |items|
    ensures SumOf(items[..i], f) <= SumOf(items, f)
  {
    SumOfParts(items[..i], items[i..], f);
    assert items == items[..i] + items[i..];
  }

  // ---- fee bounds ----

  lemma {:induction false} SharesRoundUp(items: seq<LineItem>)
    requires forall x :: x in items ==> FeeWithinShare(x)
    requires |items| > 0
    ensures SumOf(items, LineFee) <= (SumOf(items, LineAmount) + 9) / 10 + |items| - 1
  {
    var init, last := items[..|items| - 1], items[|items| - 1];
    assert last in items;
    if |items| > 1 {
      assert forall x :: x in init ==> x in items;
      SharesRoundUp(init);
    }
  }

  /** Rounding per line costs at most one unit for every line after the first. */
  lemma AcceptedFeeIsBounded(invoice: Invoice)
    requires LedgerAccepts(invoice) && |invoice.lineItems| >= 1
    ensures ParseAmount(invoice.platformFee).value
      <= (ParseAmount(invoice.totalAmount).value + 9) / 10 + |invoice.lineItems| - 1
  {
    SharesRoundUp(invoice.lineItems);
  }

  lemma {:induction false} UnitShares(items: seq<LineItem>)
    requires forall x :: x in items ==> LineFee(x) == 1
    ensures SumOf(items, LineFee) == |items|
  {
    if |items| > 0 {
      UnitShares(items[..|items| - 1]);
    }
  }

  /** The worker's ceiling takes whatever the ledger took when shares are single units, or with one line. */
  lemma AcceptedUnderWorkerCeiling(invoice: Invoice)
    requires LedgerAccepts(invoice)
    requires |invoice.lineItems| == 1 || forall x :: x in invoice.lineItems ==> LineFee(x) == 1
    ensures ParseAmount(invoice.platformFee).value
      <= FeeCeiling(ParseAmount(invoice.totalAmount).value, |invoice.lineItems|)
  {
    if |invoice.lineItems| == 1 {
      AcceptedFeeIsBounded(invoice);
    } else {
      UnitShares(invoice.lineItems);
    }
  }

  // ---- the two validators ----

  /** No amount is written with the plus sign that only the ledger's parser takes. */
  predicate Unsigned(invoice: Invoice) {
    && !Signed(invoice.totalAmount) && !Signed(invoice.platformFee)
    && forall x :: x in invoice.lineItems ==> !Signed(x.amount) && !Signed(x.ownerAmount) && !Signed(x.platformAmount)
  }

  lemma SameParse(t: Text)
    requires ParseAmount(t).Some? && !Signed(t)
    ensures ParseAtomic(t) == ParseAmount(t)
  {
  }

  lemma {:induction false} SameSums(items: seq<LineItem>)
    requires forall x :: x in items ==> AmountOf(x) == LineAmount(x) && FeeOf(x) == LineFee(x)
    ensures SumOf(items, AmountOf) == SumOf(items, LineAmount) && SumOf(items, FeeOf) == SumOf(items, LineFee)
  {
    if |items| > 0 {
      assert items[|items| - 1] in items;
      assert forall x :: x in items[..|items| - 1] ==> x in items;
      SameSums(items[..|items| - 1]);
    }
  }

  /**
   * For an invoice the ledger accepted, written without signs, over the very
   * resources of the plan: the worker accepts it exactly when the fee is also
   * under its own, aggregate ceiling.
   */
  lemma OnlyTheCeilingsDiffer(plan: Plan, hash: Invoice -> Text)
    requires LedgerAccepts(plan.invoice) && Unsigned(plan.invoice) && HeaderMatches(plan, hash)
    requires DistinctQuotes(plan.resources) && multiset(plan.invoice.lineItems) == multiset(Lines(plan.resources))
    requires forall x :: x in plan.invoice.lineItems ==> HexDigest(x.documentHash)
    ensures Agrees(plan, hash) <==>
      ParseAmount(plan.invoice.platformFee).value
        <= FeeCeiling(ParseAmount(plan.invoice.totalAmount).value, |plan.invoice.lineItems|)
  {
    var items, lines := plan.invoice.lineItems, Lines(plan.resources);
    forall x | x in items ensures WellSplit(x) && AmountOf(x) == LineAmount(x) && FeeOf(x) == LineFee(x) {
      assert LineSound(x);
      SameParse(x.amount);
      SameParse(x.ownerAmount);
      SameParse(x.platformAmount);
    }
    SplitEitherWay(items, lines);
    SameSums(items);
    SumOfPermutation(items, lines, AmountOf);
    SumOfPermutation(items, lines, FeeOf);
    assert |multiset(items)| == |multiset(lines)|;
    var total, fee := SumOf(lines, AmountOf), SumOf(lines, FeeOf);
    SameParse(plan.invoice.totalAmount);
    SameParse(plan.invoice.platformFee);
    ParsesExactlyThePrinted(plan.invoice.totalAmount, total);
    ParsesExactlyThePrinted(plan.invoice.platformFee, fee);
  }

  function Zeros(): (t: Text)
    ensures HexDigest(t) && !Blank(t)
  {
    var t: Text := seq(64, _ => 0x30);
    assert !White(t[0]);
    t
  }

  /** One line of eleven units, two of them fee. */
  function Eleven(quote: Unit): Resource {
    Resource([quote], [0x61], Zeros(), 1, [0x61], [0x61], [0x31, 0x31], [0x39], [0x32], 1)
  }

  function TwoElevens(): Invoice {
    Invoice(Scheme(), HostedPaySh(), [0x61], [0x61], [0x61], [0x61], Zeros(), Zeros(), [0x61], [0x61],
            [0x32, 0x32], [0x34], 1, PaidSnapshotOnly(), [LineOf(Eleven(0x61)), LineOf(Eleven(0x62))])
  }

  lemma ElevenIsSound(quote: Unit)
    requires quote == 0x61 || quote == 0x62
    ensures var line := LineOf(Eleven(quote)); LineSound(line) && LineAmount(line) == 11 && LineFee(line) == 2
  {
    TwoDigits(0x31);
    OneDigit(0x39);
    OneDigit(0x32);
    var line := LineOf(Eleven(quote));
    assert !White(line.quoteId[0]) && !White(line.documentHandle[0]);
  }

  lemma TwoElevensHeader()
    ensures HeaderPresent(TwoElevens())
  {
    assert !White(Scheme()[0]) && !White(HostedPaySh()[0]) && !White(PaidSnapshotOnly()[0]);
    var other: Text := [0x61];
    assert !White(other[0]);
  }

  lemma TwoElevensSums()
    ensures var items := TwoElevens().lineItems;
      SumOf(items, LineAmount) == 22 && SumOf(items, LineFee) == 4 && DistinctItems(items)
  {
    var a, b := LineOf(Eleven(0x61)), LineOf(Eleven(0x62));
    ElevenIsSound(0x61);
    ElevenIsSound(0x62);
    assert a.quoteId[0] == 0x61 && b.quoteId[0] == 0x62;
    hide LineSound, LineAmount, LineFee, SumOf;
    TwoSum(a, b, LineAmount);
    TwoSum(a, b, LineFee);
  }

  lemma TwoElevensLines()
    ensures var resources := [Eleven(0x61), Eleven(0x62)];
      && TwoElevens().lineItems == Lines(resources) && DistinctQuotes(resources) && |TwoElevens().lineItems| == 2
      && (forall x :: x in TwoElevens().lineItems ==> HexDigest(x.documentHash))
      && FeeCeiling(22, 2) == 3
  {
    var resources := [Eleven(0x61), Eleven(0x62)];
    assert resources[0].quoteId[0] == 0x61 && resources[1].quoteId[0] == 0x62;
  }

  lemma TwoElevensAccepted()
    ensures LedgerAccepts(TwoElevens()) && Unsigned(TwoElevens())
    ensures ParseAmount(TwoElevens().totalAmount) == Some(22) && ParseAmount(TwoElevens().platformFee) == Some(4)
  {
    TwoElevensSums();
    TwoElevensHeader();
    ElevenIsSound(0x61);
    ElevenIsSound(0x62);
    TwoDigits(0x32);
    OneDigit(0x34);
    hide LineSound, LineAmount, LineFee, SumOf, HeaderPresent, ParseAmount, DistinctItems, Zeros, Scheme, HostedPaySh,
      PaidSnapshotOnly;
  }

  lemma TwoElevensHeaderMatches(hash: Invoice -> Text, plan: Plan)
    requires plan.invoice == TwoElevens() && plan.invoiceHash == hash(plan.invoice)
    requires plan.id == plan.payer == plan.payTo == plan.network == plan.asset == [0x61]
    ensures HeaderMatches(plan, hash)
  {
    hide Scheme, HostedPaySh, PaidSnapshotOnly;
  }

  /**
   * Two lines of eleven units with two units of fee each: an invoice the ledger
   * accepts, over the plan's own resources, that the worker's ceiling refuses.
   */
  lemma CeilingsSeparate(hash: Invoice -> Text) returns (plan: Plan)
    ensures LedgerAccepts(plan.invoice) && Unsigned(plan.invoice) && HeaderMatches(plan, hash)
    ensures DistinctQuotes(plan.resources) && multiset(plan.invoice.lineItems) == multiset(Lines(plan.resources))
    ensures !Agrees(plan, hash)
  {
    var invoice := TwoElevens();
    var resources := [Eleven(0x61), Eleven(0x62)];
    var key: Text := [0x61];
    plan := Plan(key, key, key, key, key, resources, invoice, hash(invoice));
    hide *;
    TwoElevensLines();
    TwoElevensHeaderMatches(hash, plan);
    TwoElevensAccepted();
    OnlyTheCeilingsDiffer(plan, hash);
  }

  lemma TwoDigits(u: Unit)
    requires IsDigit(u) && u != 0x30
    ensures ParseAmount([u, u]) == Some(11 * (u - 0x30))
  {
    OneDigit(u);
    assert [u, u][..1] == [u];
    assert AllDigits([u, u]) && Value([u, u]) == 11 * (u - 0x30);
  }

  lemma OneDigit(u: Unit)
    requires IsDigit(u)
    ensures AllDigits([u]) && Value([u]) == u - 0x30 && ParseAmount([u]) == Some(u - 0x30)
  {
    assert [u][..0] == [];
    assert Value([]) == 0;
  }

  lemma TwoSum(a: LineItem, b: LineItem, f: LineItem -> nat)
    ensures SumOf([a, b], f) == f(a) + f(b)
  {
    assert [a, b][..1] == [a] && [a][..0] == [];
    assert SumOf([a], f) == f(a);
  }

  // ---- against the committed text ----

  /** A string member that says nothing. */
  predicate SaysNothing(v: Json) {
    v.String? && Blank(v.text)
  }

  lemma NumbersAreNotBlank(t: Text)
    ensures ParseAmount(t).Some? ==> !Blank(t)
  {
    if ParseAmount(t).Some? {
      assert IsDigit(t[|t| - 1]);
    }
  }

  /** No string of an accepted invoice is blank, wherever it stands in the text that is hashed. */
  lemma NothingBlankIsCommitted(invoice: Invoice)
    requires LedgerAccepts(invoice)
    ensures forall v :: v in HeaderValues(invoice) ==> !SaysNothing(v)
    ensures forall x, v :: x in invoice.lineItems && v in LineValues(x) ==> !SaysNothing(v)
  {
    NumbersAreNotBlank(invoice.totalAmount);
    NumbersAreNotBlank(invoice.platformFee);
    hide Blank, IntegerToken;
    forall x, v | x in invoice.lineItems && v in LineValues(x) ensures !SaysNothing(v) {
      LineSaysSomething(x);
    }
  }

  lemma LineSaysSomething(x: LineItem)
    requires LineSound(x)
    ensures forall v :: v in LineValues(x) ==> !SaysNothing(v)
  {
    NumbersAreNotBlank(x.amount);
    NumbersAreNotBlank(x.ownerAmount);
    NumbersAreNotBlank(x.platformAmount);
    hide Blank, IntegerToken, ParseAmount, MaximumShare;
  }

  /** Blank strings are what the header and line checks are about, and all they are about. */
  lemma PresentExactly(invoice: Invoice, x: LineItem)
    requires ParseAmount(invoice.totalAmount).Some? && ParseAmount(invoice.platformFee).Some? && LineAmountsParse(x)
    ensures HeaderPresent(invoice) <==> forall v :: v in HeaderValues(invoice) ==> !SaysNothing(v)
    ensures LinePresent(x) <==> forall v :: v in LineValues(x) ==> !SaysNothing(v)
  {
    NumbersAreNotBlank(invoice.totalAmount);
    NumbersAreNotBlank(invoice.platformFee);
    NumbersAreNotBlank(x.amount);
    NumbersAreNotBlank(x.ownerAmount);
    NumbersAreNotBlank(x.platformAmount);
    hide Blank, IntegerToken, ParseAmount;
    HeaderByValue(invoice);
    LineByValue(x);
  }

  lemma HeaderByValue(invoice: Invoice)
    ensures (forall v :: v in HeaderValues(invoice) ==> !SaysNothing(v)) ==> HeaderPresent(invoice)
  {
    hide Blank, IntegerToken;
    var values := HeaderValues(invoice);
    assert values[0] in values && values[1] in values && values[2] in values && values[3] in values;
    assert values[4] in values && values[5] in values && values[6] in values && values[7] in values;
    assert values[8] in values && values[9] in values && values[13] in values;
  }

  lemma LineByValue(x: LineItem)
    ensures (forall v :: v in LineValues(x) ==> !SaysNothing(v)) ==> LinePresent(x)
  {
    hide Blank, IntegerToken;
    var values := LineValues(x);
    assert values[0] in values && values[1] in values && values[2] in values;
    assert values[4] in values && values[5] in values;
  }
}
