/**
 * The canonical JSON text whose hash commits an invoice: canonicalJson in
 * agent-orchestrator/src/settlement-invoice.ts and canonical_json in
 * backend/src/settlement_invoice.rs. The text follows the grammar of RFC 8259;
 * the TypeScript key order is that of section 3.2.3 of RFC 8785.
 *
 * Texts are sequences of UTF-16 code units. A number is represented by a token;
 * which token a printer gives a number is its spelling (CanonicalForm).
 */
module CanonicalJson {
  import opened Wrappers
  import opened Sorting

  type Unit = x: nat | x < 0x10000
  type Text = seq<Unit>

  datatype Field = Field(key: Text, value: Json)

  /** `Unsupported` stands for non-finite numbers and for values JSON cannot hold. */
  datatype Json =
    | Null
    | Bool(flag: bool)
    | Number(token: Text)
    | String(text: Text)
    | Array(items: seq<Json>)
    | Object(fields: seq<Field>)
    | Unsupported

  const QUOTE: Unit := 0x22
  const COMMA: Unit := 0x2c
  const COLON: Unit := 0x3a
  const BACKSLASH: Unit := 0x5c
  const OPEN_BRACKET: Unit := 0x5b
  const CLOSE_BRACKET: Unit := 0x5d
  const OPEN_BRACE: Unit := 0x7b
  const CLOSE_BRACE: Unit := 0x7d
  const LOWER_U: Unit := 0x75

  // ---- strings ----

  predicate High(u: Unit) { 0xd800 <= u < 0xdc00 }

  predicate Low(u: Unit) { 0xdc00 <= u < 0xe000 }

  predicate Pair(s: Text) {
    |s| >= 2 && High(s[0]) && Low(s[1])
  }

  function HexDigit(d: nat): Unit
    requires d < 16
  {
    if d < 10 then 0x30 + d else 0x61 + d - 10
  }

  function Hex4(u: Unit): (r: Text)
    ensures |r| == 4
  {
    [HexDigit(u / 4096), HexDigit(u / 256 % 16), HexDigit(u / 16 % 16), HexDigit(u % 16)]
  }

  /** The letter of a two-unit escape, for the units that have one. */
  function ShortEscape(u: Unit): Option<Unit> {
    if u == QUOTE || u == BACKSLASH then Some(u)
    else if u == 8 then Some(0x62)
    else if u == 9 then Some(0x74)
    else if u == 10 then Some(0x6e)
    else if u == 12 then Some(0x66)
    else if u == 13 then Some(0x72)
    else None
  }

  /** How many units of a non-empty text are escaped together. */
  function Width(s: Text): (n: nat)
    requires |s| > 0
    ensures 1 <= n <= |s| && n <= 2
  {
    if Pair(s) then 2 else 1
  }

  /** The escaped form of the first `Width(s)` units. */
  function Chunk(s: Text): (r: Text)
    requires |s| > 0
    ensures |r| > 0
  {
    if Pair(s) then s[..2]
    else
      var u := s[0];
      if ShortEscape(u).Some? then [BACKSLASH, ShortEscape(u).value]
      else if u < 0x20 || High(u) || Low(u) then [BACKSLASH, LOWER_U] + Hex4(u)
      else [u]
  }

  function Escaped(s: Text): Text {
    if |s| == 0 then [] else Chunk(s) + Escaped(s[Width(s)..])
  }

  function Quoted(s: Text): Text {
    [QUOTE] + Escaped(s) + [QUOTE]
  }

  // ---- values ----

  predicate NumberUnit(u: Unit) {
    0x30 <= u <= 0x39 || u == 0x2d || u == 0x2b || u == 0x2e || u == 0x65 || u == 0x45
  }

  predicate Digit(u: Unit) { 0x30 <= u <= 0x39 }

  /** How many digits stand at `i`. */
  function DigitRun(t: Text, i: nat): (n: nat)
    ensures i <= |t| ==> i + n <= |t|
    ensures i > |t| ==> n == 0
    decreases |t| - i
  {
    if i < |t| && Digit(t[i]) then 1 + DigitRun(t, i + 1) else 0
  }

  /** Where the integer part ends that starts at `i`: a zero alone, or digits. */
  function IntegerEnd(t: Text, i: nat): (n: nat)
    requires i <= |t|
    ensures i <= n <= |t|
  {
    if i < |t| && t[i] == 0x30 then i + 1 else i + DigitRun(t, i)
  }

  /** A point with digits after it, if there is one. */
  function FractionEnd(t: Text, i: nat): (n: nat)
    requires i <= |t|
    ensures i <= n <= |t|
  {
    if i < |t| && t[i] == 0x2e && DigitRun(t, i + 1) > 0 then i + 1 + DigitRun(t, i + 1) else i
  }

  /** An exponent with an optional sign, if there is one. */
  function ExponentEnd(t: Text, i: nat): (n: nat)
    requires i <= |t|
    ensures i <= n <= |t|
  {
    if i < |t| && (t[i] == 0x65 || t[i] == 0x45) then
      var j := if i + 1 < |t| && (t[i + 1] == 0x2b || t[i + 1] == 0x2d) then i + 2 else i + 1;
      if DigitRun(t, j) > 0 then j + DigitRun(t, j) else i
    else i
  }

  /** The length of the number a text starts with, by section 6 of RFC 8259. */
  function NumberLength(t: Text): (n: Option<nat>)
    ensures n.Some? ==> 0 < n.value <= |t|
  {
    var start := if |t| > 0 && t[0] == 0x2d then 1 else 0;
    var whole := IntegerEnd(t, start);
    if whole == start then None else Some(ExponentEnd(t, FractionEnd(t, whole)))
  }

  /** A number of JSON and nothing else. */
  predicate NumberToken(t: Text) {
    NumberLength(t) == Some(|t|)
  }

  predicate DistinctKeys(fields: seq<Field>) {
    forall i, j :: 0 <= i < j < |fields| ==> fields[i].key != fields[j].key
  }

  /** Neither printer can hold anything else: object keys never repeat, tokens are numbers. */
  predicate WellFormed(v: Json)
    decreases v
  {
    match v
    case Number(token) => NumberToken(token)
    case Array(items) => forall i :: 0 <= i < |items| ==> WellFormed(items[i])
    case Object(fields) => DistinctKeys(fields) && forall i :: 0 <= i < |fields| ==> WellFormed(fields[i].value)
    case _ => true
  }

  predicate Supported(v: Json)
    decreases v
  {
    match v
    case Unsupported => false
    case Array(items) => forall i :: 0 <= i < |items| ==> Supported(items[i])
    case Object(fields) => forall i :: 0 <= i < |fields| ==> Supported(fields[i].value)
    case _ => true
  }

  function Print(v: Json): (r: Text)
    requires Supported(v)
    decreases v
  {
    match v
    case Null => [0x6e, 0x75, 0x6c, 0x6c]
    case Bool(flag) => if flag then [0x74, 0x72, 0x75, 0x65] else [0x66, 0x61, 0x6c, 0x73, 0x65]
    case Number(token) => token
    case String(text) => Quoted(text)
    case Array(items) => [OPEN_BRACKET] + PrintItems(items) + [CLOSE_BRACKET]
    case Object(fields) => [OPEN_BRACE] + PrintFields(fields) + [CLOSE_BRACE]
  }

  /** The items joined by commas. */
  function PrintItems(items: seq<Json>): Text
    requires forall i :: 0 <= i < |items| ==> Supported(items[i])
    decreases items
  {
    if |items| == 0 then []
    else if |items| == 1 then Print(items[0])
    else Print(items[0]) + [COMMA] + PrintItems(items[1..])
  }

  function PrintFields(fields: seq<Field>): Text
    requires forall i :: 0 <= i < |fields| ==> Supported(fields[i].value)
    decreases fields
  {
    if |fields| == 0 then []
    else
      var first := Quoted(fields[0].key) + [COLON] + Print(fields[0].value);
      if |fields| == 1 then first else first + [COMMA] + PrintFields(fields[1..])
  }

  /** A text that cannot prolong a number. */
  predicate Ends(a: Text) {
    a == [] || !NumberUnit(a[0])
  }

  predicate LeadsWith(v: Json, u: Unit) {
    match v
    case Null => u == 0x6e
    case Bool(flag) => u == if flag then 0x74 else 0x66
    case Number(_) => 0x30 <= u <= 0x39 || u == 0x2d
    case String(_) => u == QUOTE
    case Array(_) => u == OPEN_BRACKET
    case Object(_) => u == OPEN_BRACE
    case Unsupported => false
  }

  lemma PrintLeads(v: Json)
    requires Supported(v) && WellFormed(v)
    ensures Print(v) != [] && LeadsWith(v, Print(v)[0])
  {
  }

  predicate AllPrintable(items: seq<Json>) {
    forall i :: 0 <= i < |items| ==> Supported(items[i]) && WellFormed(items[i])
  }

  /** What follows the first item: the closing bracket, or a comma and the other items. */
  function AfterItem(items: seq<Json>, a: Text): (r: Text)
    requires AllPrintable(items) && |items| > 0
    ensures r != [] && Ends(r)
  {
    if |items| == 1 then [CLOSE_BRACKET] + a else [COMMA] + (PrintItems(items[1..]) + [CLOSE_BRACKET] + a)
  }

  lemma Regroup(first: Text, rest: Text, close: Unit, a: Text)
    ensures first + [COMMA] + rest + [close] + a == first + ([COMMA] + (rest + [close] + a))
  {
  }

  lemma FirstItem(items: seq<Json>, a: Text)
    requires AllPrintable(items) && |items| > 0
    ensures PrintItems(items) + [CLOSE_BRACKET] + a == Print(items[0]) + AfterItem(items, a)
  {
    var first, whole, after := Print(items[0]), PrintItems(items), AfterItem(items, a);
    if |items| == 1 {
      assert whole == first && after == [CLOSE_BRACKET] + a;
      hide *;
    } else {
      var rest := PrintItems(items[1..]);
      assert whole == first + [COMMA] + rest && after == [COMMA] + (rest + [CLOSE_BRACKET] + a);
      hide *;
      Regroup(first, rest, CLOSE_BRACKET, a);
    }
  }

  lemma FirstItemLeads(items: seq<Json>)
    requires AllPrintable(items) && |items| > 0
    ensures PrintItems(items) != [] && PrintItems(items)[0] != CLOSE_BRACKET
  {
    PrintLeads(items[0]);
  }

  lemma EmptyPrintsNothing()
    ensures PrintItems([]) == [] && PrintFields([]) == []
  {
  }

  predicate FieldsPrintable(fields: seq<Field>) {
    forall i :: 0 <= i < |fields| ==> Supported(fields[i].value) && WellFormed(fields[i].value)
  }

  function AfterField(fields: seq<Field>, a: Text): (r: Text)
    requires FieldsPrintable(fields) && |fields| > 0
    ensures r != [] && Ends(r)
  {
    if |fields| == 1 then [CLOSE_BRACE] + a else [COMMA] + (PrintFields(fields[1..]) + [CLOSE_BRACE] + a)
  }

  lemma FirstField(fields: seq<Field>, a: Text)
    requires FieldsPrintable(fields) && |fields| > 0
    ensures PrintFields(fields) + [CLOSE_BRACE] + a
      == Quoted(fields[0].key) + ([COLON] + (Print(fields[0].value) + AfterField(fields, a)))
  {
    var key, value := Quoted(fields[0].key), Print(fields[0].value);
    var whole, after := PrintFields(fields), AfterField(fields, a);
    if |fields| == 1 {
      assert whole == key + [COLON] + value && after == [CLOSE_BRACE] + a;
      hide *;
      RegroupOnly(key, value, after);
      assert whole + [CLOSE_BRACE] + a == whole + after;
    } else {
      var rest := PrintFields(fields[1..]);
      assert whole == key + [COLON] + value + [COMMA] + rest && after == [COMMA] + (rest + [CLOSE_BRACE] + a);
      hide *;
      RegroupOnly(key, value, after);
      Regroup(key + [COLON] + value, rest, CLOSE_BRACE, a);
    }
  }

  lemma RegroupOnly(key: Text, value: Text, after: Text)
    ensures key + [COLON] + value + after == key + ([COLON] + (value + after))
  {
  }

  lemma FirstFieldLeads(fields: seq<Field>)
    requires FieldsPrintable(fields) && |fields| > 0
    ensures PrintFields(fields) != [] && PrintFields(fields)[0] == QUOTE
  {
    var first := Quoted(fields[0].key) + [COLON] + Print(fields[0].value);
    assert first[0] == QUOTE;
  }
}
