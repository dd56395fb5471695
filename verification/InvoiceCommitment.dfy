/**
 * The text an invoice is committed by: its JSON value printed canonically
 * (hashSettlementInvoice in agent-orchestrator/src/settlement-invoice.ts,
 * SettlementInvoice::hash in backend/src/settlement_invoice.rs).
 */
module InvoiceCommitment {
  import opened Wrappers
  import opened CanonicalJson
  import opened JsonReader
  import opened KeyOrder
  import opened CanonicalForm
  import opened Decimal
  import opened Invoice

  // ---- objects over fixed plain keys ----

  predicate PlainKeys(keys: seq<Text>) {
    && (forall i, j :: 0 <= i < j < |keys| ==> keys[i] != keys[j])
    && (forall i :: 0 <= i < |keys| ==> AsciiText(keys[i]))
  }

  predicate AsciiText(t: Text) {
    forall k :: 0 <= k < |t| ==> t[k] < 128
  }

  function Fields(keys: seq<Text>, values: seq<Json>): (r: seq<Field>)
    requires |keys| == |values|
    ensures |r| == |keys| && forall i :: 0 <= i < |r| ==> r[i] == Field(keys[i], values[i])
  {
    seq(|keys|, i requires 0 <= i < |keys| => Field(keys[i], values[i]))
  }

  /** A value that both printers print, and print alike. */
  ghost predicate Printable(v: Json) {
    WellFormed(v) && Supported(v) && OrdersAgree(v)
  }

  lemma {:induction false} AsciiNeverSwaps(s: Text, t: Text)
    requires AsciiText(s)
    ensures !Swapped(s, t) && !Swapped(t, s)
  {
    if |s| > 0 && |t| > 0 && s[0] == t[0] {
      AsciiNeverSwaps(s[1..], t[1..]);
    }
  }

  lemma PlainObjectPrints(keys: seq<Text>, values: seq<Json>)
    requires |keys| == |values| && PlainKeys(keys)
    requires forall i :: 0 <= i < |values| ==> Printable(values[i])
    ensures Printable(Object(Fields(keys, values)))
  {
    var fields := Fields(keys, values);
    forall i, j | 0 <= i < |fields| && 0 <= j < |fields| ensures !Swapped(fields[i].key, fields[j].key) {
      AsciiNeverSwaps(keys[i], keys[j]);
    }
  }

  /** Over the same keys, being the same up to key order is being the same value by value. */
  lemma SameValueByValue(keys: seq<Text>, v: seq<Json>, w: seq<Json>)
    requires |keys| == |v| == |w| && PlainKeys(keys)
    requires SameUpToKeyOrder(Object(Fields(keys, v)), Object(Fields(keys, w)))
    ensures forall i :: 0 <= i < |v| ==> SameUpToKeyOrder(v[i], w[i])
  {
    hide SameUpToKeyOrder;
    forall i | 0 <= i < |v| ensures SameUpToKeyOrder(v[i], w[i]) {
      var j := MatchingField(Fields(keys, v), Fields(keys, w), i);
      assert keys[i] == keys[j];
      assert i == j;
    }
  }

  /** Length and first unit already tell the keys of these objects apart. */
  function Mark(t: Text): nat {
    if |t| == 0 then 0 else 1000 * |t| + t[0]
  }

  lemma MarkedKeysArePlain(keys: seq<Text>, marks: seq<nat>)
    requires |marks| == |keys| && forall i :: 0 <= i < |keys| ==> Mark(keys[i]) == marks[i] && AsciiText(keys[i])
    requires forall i, j :: 0 <= i < j < |marks| ==> marks[i] != marks[j]
    ensures PlainKeys(keys)
  {
  }

  // ---- the invoice as JSON ----

  /** A version or an expiry is printed as a decimal integer. */
  function IntegerToken(n: int): Text {
    if n < 0 then [0x2d] + Printed(-n) else Printed(n)
  }

  lemma TokenIsNumber(n: int)
    ensures NumberToken(IntegerToken(n))
  {
    var t := IntegerToken(n);
    var start := if n < 0 then 1 else 0;
    DecimalShape(if n < 0 then -n else n);
    assert t[start..] == Printed(if n < 0 then -n else n);
    assert forall i :: start <= i < |t| ==> t[i] == t[start..][i - start];
    DigitsRun(t, start);
    assert NumberLength(t) == Some(ExponentEnd(t, FractionEnd(t, |t|)));
  }

  lemma {:induction false} DigitsRun(t: Text, i: nat)
    requires i <= |t| && forall k :: i <= k < |t| ==> Digit(t[k])
    ensures DigitRun(t, i) == |t| - i
    decreases |t| - i
  {
    if i < |t| {
      DigitsRun(t, i + 1);
    }
  }

  lemma TokenIsInjective(m: int, n: int)
    requires IntegerToken(m) == IntegerToken(n)
    ensures m == n
  {
    var a, b := if m < 0 then -m else m, if n < 0 then -n else n;
    DecimalShape(a);
    DecimalShape(b);
    assert IsDigit(Printed(a)[0]) && IsDigit(Printed(b)[0]);
    var s, t := IntegerToken(m), IntegerToken(n);
    if m < 0 {
      assert s[0] == 0x2d;
      assert Printed(a) == s[1..] && Printed(b) == t[1..];
    }
  }

  function LineKeys(): (keys: seq<Text>)
    ensures |keys| == 9
  {
    [
      Ascii("quoteId"), Ascii("documentHandle"), Ascii("documentHash"), Ascii("documentVersion"),
      Ascii("consentVersion"), Ascii("recipientWallet"), Ascii("amountAtomic"), Ascii("ownerAmountAtomic"),
      Ascii("platformAmountAtomic")
    ]
  }

  function LineValues(item: LineItem): (values: seq<Json>)
    ensures |values| == 9
  {
    [ String(item.quoteId), String(item.documentHandle), String(item.documentHash),
      Number(IntegerToken(item.documentVersion)), String(item.consentVersion), String(item.recipientWallet),
      String(item.amount), String(item.ownerAmount), String(item.platformAmount) ]
  }

  function LineJson(item: LineItem): Json {
    Object(Fields(LineKeys(), LineValues(item)))
  }

  function InvoiceKeys(): (keys: seq<Text>)
    ensures |keys| == 15
  {
    [
      Ascii("scheme"), Ascii("settlementMode"), Ascii("jobId"), Ascii("payer"), Ascii("authorization"),
      Ascii("refundAddress"), Ascii("queryHash"), Ascii("documentBundleRoot"), Ascii("network"),
      Ascii("asset"), Ascii("totalAmountAtomic"), Ascii("platformFeeAtomic"), Ascii("expiresAt"),
      Ascii("deliveryPolicy"), Ascii("lineItems")
    ]
  }

  function HeaderValues(invoice: Invoice): (values: seq<Json>)
    ensures |values| == 14
  {
    [ String(invoice.scheme), String(invoice.settlementMode), String(invoice.jobId), String(invoice.payer),
      String(invoice.authorization), String(invoice.refundAddress), String(invoice.queryHash),
      String(invoice.documentBundleRoot), String(invoice.network), String(invoice.asset),
      String(invoice.totalAmount), String(invoice.platformFee), Number(IntegerToken(invoice.expiresAt)),
      String(invoice.deliveryPolicy) ]
  }

  function LinesJson(items: seq<LineItem>): (r: Json)
    ensures r.Array? && |r.items| == |items| && forall i :: 0 <= i < |items| ==> r.items[i] == LineJson(items[i])
  {
    Array(seq(|items|, i requires 0 <= i < |items| => LineJson(items[i])))
  }

  function InvoiceJson(invoice: Invoice): Json {
    Object(Fields(InvoiceKeys(), HeaderValues(invoice) + [LinesJson(invoice.lineItems)]))
  }

  lemma LineKeysArePlain()
    ensures PlainKeys(LineKeys())
  {
    MarkedKeysArePlain(LineKeys(), [7113, 14100, 12100, 15100, 14099, 15114, 12097, 17111, 20112]);
  }

  function InvoiceMarks(): seq<nat> {
    [6115, 14115, 5106, 5112, 13097, 13114, 9113, 18100, 7110, 5097, 17116, 17112, 9101, 14100, 9108]
  }

  lemma InvoiceMarksDiffer()
    ensures forall i, j :: 0 <= i < j < |InvoiceMarks()| ==> InvoiceMarks()[i] != InvoiceMarks()[j]
  {
  }

  lemma InvoiceKeysAreMarked()
    ensures forall i :: 0 <= i < 15 ==> Mark(InvoiceKeys()[i]) == InvoiceMarks()[i] && AsciiText(InvoiceKeys()[i])
  {
  }

  lemma InvoiceKeysArePlain()
    ensures PlainKeys(InvoiceKeys())
  {
    InvoiceMarksDiffer();
    InvoiceKeysAreMarked();
    assert |InvoiceMarks()| == 15;
    hide InvoiceKeys, InvoiceMarks;
    MarkedKeysArePlain(InvoiceKeys(), InvoiceMarks());
  }

  predicate Leaf(v: Json) {
    v.String? || (v.Number? && NumberToken(v.token))
  }

  lemma LeafPrints(v: Json)
    requires Leaf(v)
    ensures Printable(v)
  {
  }

  lemma LeavesAreEqual(v: seq<Json>, w: seq<Json>)
    requires |v| == |w| && forall i :: 0 <= i < |v| ==> Leaf(v[i]) && SameUpToKeyOrder(v[i], w[i])
    ensures v == w
  {
  }

  lemma LineValuesAreLeaves(item: LineItem)
    ensures forall i :: 0 <= i < 9 ==> Leaf(LineValues(item)[i])
  {
    hide IntegerToken, NumberToken;
    TokenIsNumber(item.documentVersion);
  }

  lemma HeaderValuesAreLeaves(invoice: Invoice)
    ensures forall i :: 0 <= i < 14 ==> Leaf(HeaderValues(invoice)[i])
  {
    hide IntegerToken, NumberToken;
    TokenIsNumber(invoice.expiresAt);
  }

  lemma LinePrints(item: LineItem)
    ensures Printable(LineJson(item))
  {
    hide LineKeys, LineValues, Leaf, Printable, PlainKeys;
    var values := LineValues(item);
    LineValuesAreLeaves(item);
    forall i | 0 <= i < |values| ensures Printable(values[i]) {
      LeafPrints(values[i]);
    }
    LineKeysArePlain();
    PlainObjectPrints(LineKeys(), values);
  }

  lemma LinesPrint(items: seq<LineItem>)
    ensures Printable(LinesJson(items))
  {
    hide LineJson;
    forall i | 0 <= i < |items| ensures Printable(LineJson(items[i])) {
      LinePrints(items[i]);
    }
  }

  lemma InvoicePrints(invoice: Invoice)
    ensures Printable(InvoiceJson(invoice))
  {
    hide InvoiceKeys, HeaderValues, LinesJson, Leaf, Printable, PlainKeys;
    var values := HeaderValues(invoice) + [LinesJson(invoice.lineItems)];
    HeaderValuesAreLeaves(invoice);
    LinesPrint(invoice.lineItems);
    forall i | 0 <= i < |values| ensures Printable(values[i]) {
      if i < 14 {
        LeafPrints(HeaderValues(invoice)[i]);
      }
    }
    InvoiceKeysArePlain();
    PlainObjectPrints(InvoiceKeys(), values);
  }

  // ---- what the worker does to the numbers ----

  /** Parsing and printing a number by the worker: integers up to the safe range come out unchanged. */
  ghost predicate SafeSpelling(f: Spelling) {
    IsSpelling(f) && forall n: int :: -MAX_SAFE_INTEGER <= n <= MAX_SAFE_INTEGER ==>
      f(IntegerToken(n)) == IntegerToken(n)
  }

  /** The ledger prints the integers it holds. */
  function Plainly(): Spelling {
    (t: Text) => t
  }

  /** The worker prints the expiry and every document version as they were sent. */
  predicate NumbersSurvive(invoice: Invoice, worker: Spelling) {
    && worker(IntegerToken(invoice.expiresAt)) == IntegerToken(invoice.expiresAt)
    && forall item :: item in invoice.lineItems ==>
         worker(IntegerToken(item.documentVersion)) == IntegerToken(item.documentVersion)
  }

  lemma PlainlyChangesNothing(v: Json)
    requires WellFormed(v) && Supported(v)
    ensures IsSpelling(Plainly()) && Spelled(Plainly(), v) == v
  {
    SpelledPlainly(v);
  }

  lemma {:induction false} SpelledPlainly(v: Json)
    ensures Spelled(Plainly(), v) == v
    decreases v
  {
    match v {
      case Array(items) =>
        forall i | 0 <= i < |items| ensures Spelled(Plainly(), items[i]) == items[i] {
          SpelledPlainly(items[i]);
        }
        assert Spelled(Plainly(), v).items == items;
      case Object(fields) =>
        forall i | 0 <= i < |fields| ensures Spelled(Plainly(), fields[i].value) == fields[i].value {
          SpelledPlainly(fields[i].value);
        }
        assert SpelledFields(Plainly(), fields) == fields;
      case _ =>
    }
  }

  /** Which numbers an object over these keys holds is told by its values. */
  lemma FieldSpellings(keys: seq<Text>, values: seq<Json>, f: Spelling, g: Spelling)
    requires |keys| == |values|
    ensures SpellingsAgree(Object(Fields(keys, values)), f, g) <==>
      forall i :: 0 <= i < |values| ==> SpellingsAgree(values[i], f, g)
  {
    var fields := Fields(keys, values);
    assert forall i :: 0 <= i < |fields| ==> fields[i].value == values[i];
  }

  lemma LineSpellings(item: LineItem, f: Spelling)
    ensures SpellingsAgree(LineJson(item), f, Plainly())
      <==> f(IntegerToken(item.documentVersion)) == IntegerToken(item.documentVersion)
  {
    hide IntegerToken, LineKeys;
    FieldSpellings(LineKeys(), LineValues(item), f, Plainly());
    assert LineValues(item)[3] == Number(IntegerToken(item.documentVersion));
  }

  lemma InvoiceSpellings(invoice: Invoice, f: Spelling)
    ensures SpellingsAgree(InvoiceJson(invoice), f, Plainly()) <==> NumbersSurvive(invoice, f)
  {
    hide IntegerToken, InvoiceKeys, LineJson, LinesJson;
    var lines := LinesJson(invoice.lineItems);
    var values := HeaderValues(invoice) + [lines];
    FieldSpellings(InvoiceKeys(), values, f, Plainly());
    assert values[12] == Number(IntegerToken(invoice.expiresAt)) && values[14] == lines;
    assert forall i :: 0 <= i < 14 && i != 12 ==> values[i].String?;
    forall i | 0 <= i < |invoice.lineItems|
      ensures SpellingsAgree(lines.items[i], f, Plainly())
        <==> f(IntegerToken(invoice.lineItems[i].documentVersion)) == IntegerToken(invoice.lineItems[i].documentVersion)
    {
      LineSpellings(invoice.lineItems[i], f);
    }
    assert SpellingsAgree(lines, f, Plainly()) <==>
      forall i :: 0 <= i < |invoice.lineItems| ==> SpellingsAgree(lines.items[i], f, Plainly());
  }

  /** The worker hashes the very text the ledger hashed exactly when its numbers survived the parsing. */
  lemma SameCommitmentExactly(invoice: Invoice, worker: Spelling)
    requires IsSpelling(worker)
    ensures Canonical(Rust, InvoiceJson(invoice)).Some?
    ensures Canonical(TypeScript, Spelled(worker, InvoiceJson(invoice))) == Canonical(Rust, InvoiceJson(invoice))
      <==> NumbersSurvive(invoice, worker)
  {
    hide InvoiceJson, NumbersSurvive;
    InvoicePrints(invoice);
    PlainlyChangesNothing(InvoiceJson(invoice));
    PrintersAgreeExactly(InvoiceJson(invoice), worker, Plainly());
    InvoiceSpellings(invoice, worker);
  }

  /** An expiry past the worker's own check and 32-bit versions are safe. */
  lemma SameCommitment(invoice: Invoice, worker: Spelling)
    requires SafeSpelling(worker) && 0 < invoice.expiresAt <= MAX_SAFE_INTEGER
    requires forall item :: item in invoice.lineItems ==> item.documentVersion < 0x1_0000_0000
    ensures Canonical(TypeScript, Spelled(worker, InvoiceJson(invoice))) == Canonical(Rust, InvoiceJson(invoice))
  {
    hide InvoiceJson, Canonical;
    SameCommitmentExactly(invoice, worker);
  }

  lemma LineValuesTell(a: LineItem, b: LineItem)
    requires LineValues(a) == LineValues(b)
    ensures a == b
  {
    hide IntegerToken;
    var v, w := LineValues(a), LineValues(b);
    assert v[0] == w[0] && v[1] == w[1] && v[2] == w[2] && v[3] == w[3] && v[4] == w[4]
      && v[5] == w[5] && v[6] == w[6] && v[7] == w[7] && v[8] == w[8];
    TokenIsInjective(a.documentVersion, b.documentVersion);
  }

  lemma LineIsCommitted(a: LineItem, b: LineItem)
    requires SameUpToKeyOrder(LineJson(a), LineJson(b))
    ensures a == b
  {
    hide LineKeys, LineValues, Leaf, SameUpToKeyOrder, PlainKeys;
    LineKeysArePlain();
    SameValueByValue(LineKeys(), LineValues(a), LineValues(b));
    LineValuesAreLeaves(a);
    LeavesAreEqual(LineValues(a), LineValues(b));
    LineValuesTell(a, b);
  }

  lemma LinesAreCommitted(a: seq<LineItem>, b: seq<LineItem>)
    requires SameUpToKeyOrder(LinesJson(a), LinesJson(b))
    ensures a == b
  {
    hide LineJson, LinesJson;
    forall i | 0 <= i < |a| ensures a[i] == b[i] {
      assert SameUpToKeyOrder(LinesJson(a).items[i], LinesJson(b).items[i]);
      LineIsCommitted(a[i], b[i]);
    }
  }

  lemma HeaderValuesTell(a: Invoice, b: Invoice)
    requires HeaderValues(a) == HeaderValues(b) && a.lineItems == b.lineItems
    ensures a == b
  {
    hide IntegerToken;
    var v, w := HeaderValues(a), HeaderValues(b);
    assert v[0] == w[0] && v[1] == w[1] && v[2] == w[2] && v[3] == w[3] && v[4] == w[4] && v[5] == w[5] && v[6] == w[6];
    assert v[7] == w[7] && v[8] == w[8] && v[9] == w[9] && v[10] == w[10];
    assert v[11] == w[11] && v[12] == w[12] && v[13] == w[13];
    TokenIsInjective(a.expiresAt, b.expiresAt);
  }

  lemma InvoiceIsCommitted(a: Invoice, b: Invoice)
    requires SameUpToKeyOrder(InvoiceJson(a), InvoiceJson(b))
    ensures a == b
  {
    hide InvoiceKeys, HeaderValues, LinesJson, Leaf, SameUpToKeyOrder, PlainKeys;
    var v, w := HeaderValues(a) + [LinesJson(a.lineItems)], HeaderValues(b) + [LinesJson(b.lineItems)];
    InvoiceKeysArePlain();
    SameValueByValue(InvoiceKeys(), v, w);
    HeaderValuesAreLeaves(a);
    forall i | 0 <= i < 14 ensures SameUpToKeyOrder(HeaderValues(a)[i], HeaderValues(b)[i]) {
      assert SameUpToKeyOrder(v[i], w[i]);
    }
    LeavesAreEqual(HeaderValues(a), HeaderValues(b));
    assert SameUpToKeyOrder(v[14], w[14]);
    LinesAreCommitted(a.lineItems, b.lineItems);
    HeaderValuesTell(a, b);
  }

  /** The committed text binds every field of every line: two invoices share it only if they are equal. */
  lemma TextCommitsTheInvoice(p: Printer, a: Invoice, b: Invoice)
    ensures Canonical(p, InvoiceJson(a)) == Canonical(p, InvoiceJson(b)) <==> a == b
  {
    hide InvoiceJson;
    InvoicePrints(a);
    InvoicePrints(b);
    CanonicalDecidesSameness(p, InvoiceJson(a), InvoiceJson(b));
    if Canonical(p, InvoiceJson(a)) == Canonical(p, InvoiceJson(b)) {
      InvoiceIsCommitted(a, b);
    }
  }

  // ---- what a reader of the committed text finds ----

  /** The object has the member of this name and value. */
  predicate Says(v: Json, name: string, w: Json) {
    v.Object? && Field(Ascii(name), w) in v.fields
  }

  function IntegerValue(t: Text): Option<int> {
    var negative := |t| > 0 && t[0] == 0x2d;
    var digits := if negative then t[1..] else t;
    if |digits| == 0 || !AllDigits(digits) then None
    else
      var n: int := Value(digits);
      Some(if negative then -n else n)
  }

  lemma TokenMeansInteger(n: int)
    ensures IntegerValue(IntegerToken(n)) == Some(n)
  {
    var t := IntegerToken(n);
    DecimalShape(if n < 0 then -n else n);
    if n < 0 {
      assert t[1..] == Printed(-n);
    } else {
      assert IsDigit(t[0]);
    }
  }

  /** The object has the member of this name, and its value is this number. */
  ghost predicate SaysNumber(v: Json, name: string, n: int) {
    exists token :: Says(v, name, Number(token)) && IntegerValue(token) == Some(n)
  }

  ghost predicate SaysLine(v: Json, item: LineItem) {
    && Says(v, "quoteId", String(item.quoteId))
    && Says(v, "documentHandle", String(item.documentHandle))
    && Says(v, "documentHash", String(item.documentHash))
    && SaysNumber(v, "documentVersion", item.documentVersion)
    && Says(v, "consentVersion", String(item.consentVersion))
    && Says(v, "recipientWallet", String(item.recipientWallet))
    && Says(v, "amountAtomic", String(item.amount))
    && Says(v, "ownerAmountAtomic", String(item.ownerAmount))
    && Says(v, "platformAmountAtomic", String(item.platformAmount))
  }

  ghost predicate SaysHeader(v: Json, invoice: Invoice) {
    && Says(v, "scheme", String(invoice.scheme))
    && Says(v, "settlementMode", String(invoice.settlementMode))
    && Says(v, "jobId", String(invoice.jobId))
    && Says(v, "payer", String(invoice.payer))
    && Says(v, "authorization", String(invoice.authorization))
    && Says(v, "refundAddress", String(invoice.refundAddress))
    && Says(v, "queryHash", String(invoice.queryHash))
    && Says(v, "documentBundleRoot", String(invoice.documentBundleRoot))
    && Says(v, "network", String(invoice.network))
    && Says(v, "asset", String(invoice.asset))
    && Says(v, "totalAmountAtomic", String(invoice.totalAmount))
    && Says(v, "platformFeeAtomic", String(invoice.platformFee))
    && SaysNumber(v, "expiresAt", invoice.expiresAt)
    && Says(v, "deliveryPolicy", String(invoice.deliveryPolicy))
  }

  ghost predicate SaysLines(v: Json, items: seq<LineItem>) {
    exists lines: seq<Json> ::
      Says(v, "lineItems", Array(lines)) && |lines| == |items|
      && forall i :: 0 <= i < |items| ==> SaysLine(lines[i], items[i])
  }

  lemma MemberIsKept(keys: seq<Text>, values: seq<Json>, v: Json, i: nat) returns (w: Json)
    requires |keys| == |values| && i < |keys| && SameUpToKeyOrder(Object(Fields(keys, values)), v)
    ensures v.Object? && Field(keys[i], w) in v.fields && SameUpToKeyOrder(values[i], w)
    ensures Leaf(values[i]) ==> w == values[i]
  {
    var j := MatchingField(Fields(keys, values), v.fields, i);
    w := v.fields[j].value;
  }

  lemma LineSays(item: LineItem, v: Json)
    requires SameUpToKeyOrder(LineJson(item), v)
    ensures SaysLine(v, item)
  {
    var keys, values := LineKeys(), LineValues(item);
    LineValuesAreLeaves(item);
    TokenMeansInteger(item.documentVersion);
    hide SameUpToKeyOrder, IntegerToken, IntegerValue, Leaf, Ascii;
    forall i | 0 <= i < 9 ensures v.Object? && Field(keys[i], values[i]) in v.fields {
      var w := MemberIsKept(keys, values, v, i);
    }
    assert Says(v, "quoteId", values[0]);
    assert Says(v, "documentHandle", values[1]);
    assert Says(v, "documentHash", values[2]);
    assert Says(v, "documentVersion", values[3]);
    assert Says(v, "consentVersion", values[4]);
    assert Says(v, "recipientWallet", values[5]);
    assert Says(v, "amountAtomic", values[6]);
    assert Says(v, "ownerAmountAtomic", values[7]);
    assert Says(v, "platformAmountAtomic", values[8]);
  }

  lemma HeaderMember(invoice: Invoice, v: Json, i: nat, name: string)
    requires i < 14 && SameUpToKeyOrder(InvoiceJson(invoice), v) && InvoiceKeys()[i] == Ascii(name)
    ensures Says(v, name, HeaderValues(invoice)[i])
  {
    hide InvoiceKeys, HeaderValues, LinesJson, Leaf, SameUpToKeyOrder, Ascii;
    var values := HeaderValues(invoice) + [LinesJson(invoice.lineItems)];
    HeaderValuesAreLeaves(invoice);
    var w := MemberIsKept(InvoiceKeys(), values, v, i);
  }

  lemma HeaderSays(invoice: Invoice, v: Json)
    requires SameUpToKeyOrder(InvoiceJson(invoice), v)
    ensures SaysHeader(v, invoice)
  {
    hide Ascii, IntegerToken, IntegerValue, InvoiceJson, SameUpToKeyOrder, Says;
    TokenMeansInteger(invoice.expiresAt);
    HeaderMember(invoice, v, 0, "scheme");
    HeaderMember(invoice, v, 1, "settlementMode");
    HeaderMember(invoice, v, 2, "jobId");
    HeaderMember(invoice, v, 3, "payer");
    HeaderMember(invoice, v, 4, "authorization");
    HeaderMember(invoice, v, 5, "refundAddress");
    HeaderMember(invoice, v, 6, "queryHash");
    HeaderMember(invoice, v, 7, "documentBundleRoot");
    HeaderMember(invoice, v, 8, "network");
    HeaderMember(invoice, v, 9, "asset");
    HeaderMember(invoice, v, 10, "totalAmountAtomic");
    HeaderMember(invoice, v, 11, "platformFeeAtomic");
    HeaderMember(invoice, v, 12, "expiresAt");
    HeaderMember(invoice, v, 13, "deliveryPolicy");
  }

  lemma LinesSay(invoice: Invoice, v: Json)
    requires SameUpToKeyOrder(InvoiceJson(invoice), v)
    ensures SaysLines(v, invoice.lineItems)
  {
    hide HeaderValues, LineJson, Leaf, Ascii, SaysLine;
    var items := invoice.lineItems;
    var w := MemberIsKept(InvoiceKeys(), HeaderValues(invoice) + [LinesJson(items)], v, 14);
    assert InvoiceKeys()[14] == Ascii("lineItems");
    hide InvoiceKeys;
    assert w.Array? && |w.items| == |items|;
    forall i | 0 <= i < |items| ensures SaysLine(w.items[i], items[i]) {
      LineSays(items[i], w.items[i]);
    }
    assert Says(v, "lineItems", Array(w.items));
  }

  /** Whoever reads the committed text finds every field under its own name, and the line items in order. */
  lemma TextSaysTheInvoice(p: Printer, invoice: Invoice)
    ensures Canonical(p, InvoiceJson(invoice)).Some?
    ensures ReadText(Canonical(p, InvoiceJson(invoice)).value).Some?
    ensures var v := ReadText(Canonical(p, InvoiceJson(invoice)).value).value;
      SaysHeader(v, invoice) && SaysLines(v, invoice.lineItems)
  {
    hide InvoiceJson, Canonical, ReadText, SaysHeader, SaysLines;
    InvoicePrints(invoice);
    CanonicalReadsBack(p, InvoiceJson(invoice));
    var v := ReadText(Canonical(p, InvoiceJson(invoice)).value).value;
    HeaderSays(invoice, v);
    LinesSay(invoice, v);
  }
}
