/**
 * A reader of JSON texts after the grammar of RFC 8259, white space and all
 * escapes included, and that it reads back whatever the canonical printers
 * write, up to where it ends.
 */
module JsonReader {
  import opened Wrappers
  import opened CanonicalJson
  import opened KeyOrder

  datatype Parsed<T> = Parsed(value: T, rest: Text)

  // ---- the reader ----

  /** Section 2: white space may stand around any token. */
  function Skip(t: Text): (r: Text)
    ensures |r| <= |t|
  {
    if |t| > 0 && t[0] in {0x20, 0x09, 0x0a, 0x0d} then Skip(t[1..]) else t
  }

  function HexValue(u: Unit): Option<nat> {
    if Digit(u) then Some(u - 0x30)
    else if 0x61 <= u <= 0x66 then Some(u - 0x61 + 10)
    else if 0x41 <= u <= 0x46 then Some(u - 0x41 + 10)
    else None
  }

  /** The four hexadecimal digits of an escape, read from the left. */
  function HexUnit(t: Text): (r: Option<Unit>)
    requires |t| == 4
  {
    var a, b, c, d := HexValue(t[0]), HexValue(t[1]), HexValue(t[2]), HexValue(t[3]);
    if a.None? || b.None? || c.None? || d.None? then None
    else
      var n := ((a.value * 16 + b.value) * 16 + c.value) * 16 + d.value;
      if n < 0x10000 then Some(n) else None
  }

  /** What the unit after a backslash stands for. */
  function EscapeMeans(u: Unit): Option<Unit> {
    if u == 0x22 || u == 0x5c || u == 0x2f then Some(u)
    else if u == 0x62 then Some(0x08)
    else if u == 0x66 then Some(0x0c)
    else if u == 0x6e then Some(0x0a)
    else if u == 0x72 then Some(0x0d)
    else if u == 0x74 then Some(0x09)
    else None
  }

  /** One character of a string, section 7. */
  function ReadUnit(t: Text): (r: Option<Parsed<Unit>>)
    ensures r.Some? ==> |r.value.rest| < |t|
  {
    if |t| == 0 || t[0] < 0x20 || t[0] == 0x22 then None
    else if t[0] != 0x5c then Some(Parsed(t[0], t[1..]))
    else if |t| >= 2 && EscapeMeans(t[1]).Some? then Some(Parsed(EscapeMeans(t[1]).value, t[2..]))
    else if |t| >= 6 && t[1] == 0x75 && HexUnit(t[2..6]).Some? then Some(Parsed(HexUnit(t[2..6]).value, t[6..]))
    else None
  }

  /** The rest of a string behind its opening quotation mark. */
  function ReadUnits(t: Text): (r: Option<Parsed<Text>>)
    ensures r.Some? ==> |r.value.rest| < |t|
    decreases |t|
  {
    if |t| > 0 && t[0] == 0x22 then Some(Parsed([], t[1..]))
    else
      var first := ReadUnit(t);
      if first.None? then None
      else
        var others := ReadUnits(first.value.rest);
        if others.None? then None else Some(Parsed([first.value.value] + others.value.value, others.value.rest))
  }

  predicate Starts(t: Text, word: Text) {
    |word| <= |t| && t[..|word|] == word
  }

  function ReadValue(t: Text): (r: Option<Parsed<Json>>)
    ensures r.Some? ==> |r.value.rest| < |t|
    decreases |t|, 1
  {
    var s := Skip(t);
    if |s| == 0 then None
    else if s[0] == 0x22 then
      var units := ReadUnits(s[1..]);
      if units.None? then None else Some(Parsed(String(units.value.value), units.value.rest))
    else if s[0] == 0x5b then
      var inside := Skip(s[1..]);
      if |inside| > 0 && inside[0] == 0x5d then Some(Parsed(Array([]), inside[1..]))
      else
        var items := ReadItems(inside);
        if items.None? then None else Some(Parsed(Array(items.value.value), items.value.rest))
    else if s[0] == 0x7b then
      var inside := Skip(s[1..]);
      if |inside| > 0 && inside[0] == 0x7d then Some(Parsed(Object([]), inside[1..]))
      else
        var fields := ReadFields(inside);
        if fields.None? then None else Some(Parsed(Object(fields.value.value), fields.value.rest))
    else ReadWord(s)
  }

  /** The three names and the numbers, sections 3 and 6. */
  function ReadWord(s: Text): (r: Option<Parsed<Json>>)
    ensures r.Some? ==> |r.value.rest| < |s|
  {
    if Starts(s, [0x6e, 0x75, 0x6c, 0x6c]) then Some(Parsed(Null, s[4..]))
    else if Starts(s, [0x74, 0x72, 0x75, 0x65]) then Some(Parsed(Bool(true), s[4..]))
    else if Starts(s, [0x66, 0x61, 0x6c, 0x73, 0x65]) then Some(Parsed(Bool(false), s[5..]))
    else
      var n := NumberLength(s);
      if n.None? then None else Some(Parsed(Number(s[..n.value]), s[n.value..]))
  }

  /** One value and the others up to the closing bracket, section 5. */
  function ReadItems(t: Text): (r: Option<Parsed<seq<Json>>>)
    ensures r.Some? ==> |r.value.rest| < |t|
    decreases |t|, 2
  {
    var first := ReadValue(t);
    if first.None? then None
    else
      var after := Skip(first.value.rest);
      if |after| == 0 then None
      else if after[0] == 0x5d then Some(Parsed([first.value.value], after[1..]))
      else if after[0] != 0x2c then None
      else
        var others := ReadItems(after[1..]);
        if others.None? then None else Some(Parsed([first.value.value] + others.value.value, others.value.rest))
  }

  /** A name, a colon and a value, section 4. */
  function ReadField(t: Text): (r: Option<Parsed<Field>>)
    ensures r.Some? ==> |r.value.rest| < |t|
    decreases |t|, 2
  {
    var s := Skip(t);
    if |s| == 0 || s[0] != 0x22 then None
    else
      var key := ReadUnits(s[1..]);
      if key.None? then None
      else
        var colon := Skip(key.value.rest);
        if |colon| == 0 || colon[0] != 0x3a then None
        else
          var value := ReadValue(colon[1..]);
          if value.None? then None
          else Some(Parsed(Field(key.value.value, value.value.value), value.value.rest))
  }

  function ReadFields(t: Text): (r: Option<Parsed<seq<Field>>>)
    ensures r.Some? ==> |r.value.rest| < |t|
    decreases |t|, 3
  {
    var first := ReadField(t);
    if first.None? then None
    else
      var after := Skip(first.value.rest);
      if |after| == 0 then None
      else if after[0] == 0x7d then Some(Parsed([first.value.value], after[1..]))
      else if after[0] != 0x2c then None
      else
        var others := ReadFields(after[1..]);
        if others.None? then None else Some(Parsed([first.value.value] + others.value.value, others.value.rest))
  }

  /** A whole text: one value, and at most white space after it. */
  function ReadText(t: Text): Option<Json> {
    var v := ReadValue(t);
    if v.Some? && Skip(v.value.rest) == [] then Some(v.value.value) else None
  }

  // ---- strings come back ----

  lemma HexDigitComesBack(d: nat)
    requires d < 16
    ensures HexValue(HexDigit(d)) == Some(d)
  {
  }

  lemma DigitsOf(u: Unit)
    ensures u == ((u / 4096 * 16 + u / 256 % 16) * 16 + u / 16 % 16) * 16 + u % 16
  {
    assert u / 16 / 16 == u / 256 && u / 256 / 16 == u / 4096;
  }

  lemma Hex4ComesBack(u: Unit)
    ensures HexUnit(Hex4(u)) == Some(u)
  {
    HexDigitComesBack(u / 4096);
    HexDigitComesBack(u / 256 % 16);
    HexDigitComesBack(u / 16 % 16);
    HexDigitComesBack(u % 16);
    DigitsOf(u);
    hide HexDigit, HexValue;
  }

  /** The first unit of a chunk comes back, and a pair leaves its second. */
  lemma ChunkComesBack(s: Text, a: Text)
    requires |s| > 0
    ensures var first := if Pair(s) then [s[1]] + a else a;
      ReadUnit(Chunk(s) + a) == Some(Parsed(s[0], first))
  {
    var t := Chunk(s) + a;
    if Pair(s) {
      assert t[1..] == [s[1]] + a;
    } else if ShortEscape(s[0]).Some? {
      assert t[2..] == a;
    } else if s[0] < 0x20 || High(s[0]) || Low(s[0]) {
      Hex4ComesBack(s[0]);
      hide Hex4, HexUnit;
      assert t[2..6] == Hex4(s[0]) && t[6..] == a;
    } else {
      assert t[1..] == a;
    }
  }

  lemma NoQuoteLeads(s: Text, a: Text)
    requires |s| > 0
    ensures |Chunk(s) + a| > 0 && (Chunk(s) + a)[0] != 0x22
  {
    assert (Chunk(s) + a)[0] == Chunk(s)[0];
  }

  lemma UnitsGoOn(t: Text, u: Unit, rest: Text)
    requires |t| > 0 && t[0] != 0x22 && ReadUnit(t) == Some(Parsed(u, rest))
    ensures ReadUnits(t)
      == if ReadUnits(rest).None? then None
         else Some(Parsed([u] + ReadUnits(rest).value.value, ReadUnits(rest).value.rest))
  {
  }

  lemma EscapedSplits(s: Text, a: Text)
    requires |s| > 0
    ensures Escaped(s) + [QUOTE] + a == Chunk(s) + (Escaped(s[Width(s)..]) + [QUOTE] + a)
  {
    assert Escaped(s) == Chunk(s) + Escaped(s[Width(s)..]);
    hide *;
    Behind(Chunk(s), Escaped(s[Width(s)..]), QUOTE, a);
  }

  lemma Behind(x: Text, y: Text, close: Unit, a: Text)
    ensures x + y + [close] + a == x + (y + [close] + a)
  {
  }

  /** A chunk is read back unit by unit. */
  lemma ChunkReadsBack(s: Text, others: Text, tail: Text, a: Text)
    requires |s| > 0 && ReadUnits(tail) == Some(Parsed(others, a))
    ensures ReadUnits(Chunk(s) + tail) == Some(Parsed(s[..Width(s)] + others, a))
  {
    NoQuoteLeads(s, tail);
    ChunkComesBack(s, tail);
    hide Chunk, ReadUnits, ReadUnit;
    if Pair(s) {
      var low := [s[1]] + tail;
      LowUnit(s[1], tail);
      UnitsGoOn(low, s[1], tail);
      UnitsGoOn(Chunk(s) + tail, s[0], low);
      PairPlus(s, others);
    } else {
      UnitsGoOn(Chunk(s) + tail, s[0], tail);
      assert s[..1] == [s[0]];
    }
  }

  lemma PairPlus(s: Text, others: Text)
    requires |s| >= 2
    ensures s[..2] + others == [s[0]] + ([s[1]] + others)
  {
  }

  lemma LowUnit(u: Unit, tail: Text)
    requires Low(u)
    ensures ReadUnit([u] + tail) == Some(Parsed(u, tail))
  {
    assert ([u] + tail)[1..] == tail;
  }

  /** An escaped text is read back up to its closing quotation mark. */
  lemma {:induction false} EscapedReadsBack(s: Text, a: Text)
    ensures ReadUnits(Escaped(s) + [QUOTE] + a) == Some(Parsed(s, a))
    decreases |s|
  {
    if |s| == 0 {
      assert (Escaped(s) + [QUOTE] + a)[1..] == a;
    } else {
      hide Chunk, Width, ReadUnits, Escaped;
      var rest := s[Width(s)..];
      EscapedReadsBack(rest, a);
      EscapedSplits(s, a);
      ChunkReadsBack(s, rest, Escaped(rest) + [QUOTE] + a, a);
      assert s[..Width(s)] + rest == s;
    }
  }

  predicate Plain(u: Unit) {
    u >= 0x20 && u != 0x22 && u != 0x5c
  }

  lemma PlainChunk(s: Text)
    requires |s| > 0 && Plain(s[0]) && WellFormedText(s)
    ensures Chunk(s) == s[..Width(s)] && WellFormedText(s[Width(s)..])
  {
    hide Hex4;
  }

  /** Plain text is left as it is, pairs of surrogates included. */
  lemma {:induction false} PlainIsNotEscaped(s: Text)
    requires Paired(s) && forall i :: 0 <= i < |s| ==> Plain(s[i])
    ensures Escaped(s) == s
    decreases |s|
  {
    WellFormedExactly(s);
    if |s| > 0 {
      PlainChunk(s);
      WellFormedExactly(s[Width(s)..]);
      hide Chunk, Width, Plain, WellFormedText, Paired;
      PlainIsNotEscaped(s[Width(s)..]);
      assert s[..Width(s)] + s[Width(s)..] == s;
    }
  }

  /** No spelling of a unit is shorter than the one chosen, and only the hexadecimal one has rivals of its length. */
  lemma EscapesAreShortest(u: Unit, t: Text)
    requires !High(u) && !Low(u) && ReadUnit(t) == Some(Parsed(u, []))
    ensures |Chunk([u])| <= |t|
    ensures |Chunk([u])| == |t| < 6 ==> Chunk([u]) == t
  {
    hide HexUnit, Hex4;
    assert t[|t|..] == [];
  }

  /** The hexadecimal escapes are spelled in lower case. */
  lemma HexIsLowerCase(u: Unit)
    ensures forall k :: 0 <= k < 4 ==> Digit(Hex4(u)[k]) || 0x61 <= Hex4(u)[k] <= 0x66
  {
  }

  // ---- numbers come back ----

  lemma {:induction false} RunGoesOn(t: Text, a: Text, i: nat)
    requires i <= |t| && Ends(a)
    ensures DigitRun(t + a, i) == DigitRun(t, i)
    decreases |t| - i
  {
    if i < |t| && Digit(t[i]) {
      RunGoesOn(t, a, i + 1);
    }
  }

  lemma PartsGoOn(t: Text, a: Text, i: nat)
    requires i <= |t| && Ends(a)
    ensures IntegerEnd(t + a, i) == IntegerEnd(t, i) && FractionEnd(t + a, i) == FractionEnd(t, i)
  {
    var s := t + a;
    assert i < |t| ==> s[i] == t[i];
    assert i == |t| < |s| ==> s[i] == a[0];
    RunGoesOn(t, a, i);
    if i < |t| {
      RunGoesOn(t, a, i + 1);
    }
    hide DigitRun;
  }

  lemma ExponentGoesOn(t: Text, a: Text, i: nat)
    requires i <= |t| && Ends(a)
    ensures ExponentEnd(t + a, i) == ExponentEnd(t, i)
  {
    var s := t + a;
    assert forall k :: 0 <= k < |t| ==> s[k] == t[k];
    assert |t| < |s| ==> s[|t|] == a[0];
    if i < |t| {
      RunGoesOn(t, a, i + 1);
      if i + 1 < |t| {
        RunGoesOn(t, a, i + 2);
      }
    }
    hide DigitRun;
  }

  /** A number ends where a text begins that cannot prolong it. */
  lemma NumberComesBack(t: Text, a: Text)
    requires NumberToken(t) && Ends(a)
    ensures NumberLength(t + a) == Some(|t|)
  {
    assert (t + a)[0] == t[0];
    var start := if t[0] == 0x2d then 1 else 0;
    var whole := IntegerEnd(t, start);
    PartsGoOn(t, a, start);
    PartsGoOn(t, a, whole);
    ExponentGoesOn(t, a, FractionEnd(t, whole));
    hide IntegerEnd, FractionEnd, ExponentEnd;
  }

  // ---- numbers by the grammar ----

  predicate Digits(t: Text, from: nat, to: nat) {
    from < to <= |t| && forall i :: from <= i < to ==> Digit(t[i])
  }

  /** A minus sign or none up to `a`, an integer without leading zeros up to `b`, a fraction or none up to `c`. */
  predicate Mantissa(t: Text, a: nat, b: nat, c: nat) {
    && (a == 0 || (a == 1 && |t| > 0 && t[0] == 0x2d))
    && Digits(t, a, b) && (b == a + 1 || t[a] != 0x30)
    && (c == b || (b < |t| && t[b] == 0x2e && Digits(t, b + 1, c)))
  }

  /** From `c` on an exponent, its sign optional, or nothing. */
  predicate Exponent(t: Text, c: nat) {
    || c == |t|
    || (&& c + 1 < |t| && t[c] in {0x65, 0x45}
        && (Digits(t, c + 1, |t|) || (t[c + 1] in {0x2b, 0x2d} && Digits(t, c + 2, |t|))))
  }

  lemma {:induction false} RunIs(t: Text, i: nat, n: nat)
    requires i <= n <= |t| && (n < |t| ==> !Digit(t[n])) && forall k :: i <= k < n ==> Digit(t[k])
    ensures DigitRun(t, i) == n - i
    decreases n - i
  {
    if i < n {
      RunIs(t, i + 1, n);
    }
  }

  lemma {:induction false} RunIsDigits(t: Text, i: nat)
    ensures forall k :: i <= k < i + DigitRun(t, i) && k < |t| ==> Digit(t[k])
    decreases |t| - i
  {
    if i < |t| && Digit(t[i]) {
      RunIsDigits(t, i + 1);
    }
  }

  lemma GrammarIsRead(t: Text, a: nat, b: nat, c: nat)
    requires Mantissa(t, a, b, c) && Exponent(t, c)
    ensures NumberToken(t)
  {
    hide DigitRun;
    RunIs(t, a, b);
    if b < c {
      RunIs(t, b + 1, c);
    }
    if c < |t| {
      RunIs(t, if Digits(t, c + 1, |t|) then c + 1 else c + 2, |t|);
    }
  }

  lemma ReadIsGrammar(t: Text) returns (a: nat, b: nat, c: nat)
    requires NumberToken(t)
    ensures Mantissa(t, a, b, c) && Exponent(t, c)
  {
    a := if t[0] == 0x2d then 1 else 0;
    b := IntegerEnd(t, a);
    c := FractionEnd(t, b);
    RunIsDigits(t, a);
    RunIsDigits(t, b + 1);
    RunIsDigits(t, c + 1);
    RunIsDigits(t, c + 2);
    hide DigitRun;
  }

  /** The numbers read as a whole are the sentences of the grammar. */
  lemma NumbersAreGrammatical(t: Text)
    ensures NumberToken(t) <==> exists a: nat, b: nat, c: nat :: Mantissa(t, a, b, c) && Exponent(t, c)
  {
    hide Mantissa, Exponent, NumberToken;
    if NumberToken(t) {
      var a, b, c := ReadIsGrammar(t);
    }
    if a: nat, b: nat, c: nat :| Mantissa(t, a, b, c) && Exponent(t, c) {
      GrammarIsRead(t, a, b, c);
    }
  }

  // ---- values come back ----

  /** Nothing a value or a name begins with is white space. */
  lemma NothingSkipped(t: Text)
    requires |t| > 0 && t[0] !in {0x20, 0x09, 0x0a, 0x0d}
    ensures Skip(t) == t
  {
  }

  lemma Wrapped(open: Unit, x: Text, close: Unit, a: Text)
    ensures ([open] + x + [close] + a)[1..] == x + [close] + a
  {
  }

  lemma NumberReadsBack(t: Text, a: Text)
    requires NumberToken(t) && Ends(a)
    ensures |t| > 0 && (Digit(t[0]) || t[0] == 0x2d)
    ensures ReadWord(t + a) == Some(Parsed(Number(t), a))
  {
    var s := t + a;
    NumberComesBack(t, a);
    assert s[0] == t[0];
    assert s[..|t|] == t && s[|t|..] == a;
    hide NumberLength;
  }

  lemma StartsByItsFirst(t: Text, word: Text)
    requires |word| > 0
    ensures Starts(t, word) ==> |t| > 0 && t[0] == word[0]
  {
  }

  lemma WordReadsBack(v: Json, a: Text)
    requires v.Null? || v.Bool?
    ensures ReadWord(Print(v) + a) == Some(Parsed(v, a))
  {
    hide NumberLength;
    var word, t := Print(v), Print(v) + a;
    assert t[..|word|] == word && t[|word|..] == a && t[0] == word[0];
    StartsByItsFirst(t, [0x6e, 0x75, 0x6c, 0x6c]);
    StartsByItsFirst(t, [0x74, 0x72, 0x75, 0x65]);
    StartsByItsFirst(t, [0x66, 0x61, 0x6c, 0x73, 0x65]);
    assert Starts(t, word);
    hide Starts;
  }

  /** What leads to none of the brackets and quotation marks is a name or a number. */
  lemma WordIsValue(t: Text)
    requires |t| > 0 && (Digit(t[0]) || t[0] in {0x6e, 0x74, 0x66, 0x2d})
    ensures ReadValue(t) == ReadWord(t)
  {
    hide ReadWord, ReadItems, ReadFields, ReadUnits;
    NothingSkipped(t);
  }

  lemma StringReadsBack(text: Text, a: Text)
    ensures ReadValue(Quoted(text) + a) == Some(Parsed(String(text), a))
  {
    hide ReadWord, ReadItems, ReadFields, ReadUnits, Escaped;
    var t := Quoted(text) + a;
    NothingSkipped(t);
    EscapedReadsBack(text, a);
    assert t[1..] == Escaped(text) + [QUOTE] + a;
  }

  /** A printed value is read back from any text that goes on after it. */
  lemma {:induction false} PrintReadsBack(v: Json, a: Text)
    requires Supported(v) && WellFormed(v) && Ends(a)
    ensures ReadValue(Print(v) + a) == Some(Parsed(v, a))
    decreases v, 0
  {
    hide ReadValue, ReadWord, NumberToken, Quoted;
    match v {
      case Null =>
        WordReadsBack(v, a);
        WordIsValue(Print(v) + a);
      case Bool(_) =>
        WordReadsBack(v, a);
        WordIsValue(Print(v) + a);
      case Number(token) =>
        NumberReadsBack(token, a);
        WordIsValue(token + a);
      case String(text) => StringReadsBack(text, a);
      case Array(items) => ArrayReadsBack(items, a);
      case Object(fields) => ObjectReadsBack(fields, a);
    }
  }

  lemma {:induction false} ArrayReadsBack(items: seq<Json>, a: Text)
    requires AllPrintable(items)
    ensures ReadValue(Print(Array(items)) + a) == Some(Parsed(Array(items), a))
    decreases items, 1
  {
    hide ReadItems, ReadFields, ReadWord, ReadUnits;
    var t := Print(Array(items)) + a;
    var inside := PrintItems(items) + [CLOSE_BRACKET] + a;
    Wrapped(OPEN_BRACKET, PrintItems(items), CLOSE_BRACKET, a);
    NothingSkipped(t);
    if items == [] {
      EmptyPrintsNothing();
      assert inside == [CLOSE_BRACKET] + a;
      assert inside[1..] == a;
    } else {
      FirstItemLeads(items);
      assert inside[0] == PrintItems(items)[0];
      ItemsReadBack(items, a);
    }
    NothingSkipped(inside);
  }

  lemma LastItemRead(t: Text, v: Json, a: Text)
    requires ReadValue(t) == Some(Parsed(v, [CLOSE_BRACKET] + a))
    ensures ReadItems(t) == Some(Parsed([v], a))
  {
    hide ReadValue;
    NothingSkipped([CLOSE_BRACKET] + a);
    assert ([CLOSE_BRACKET] + a)[1..] == a;
  }

  lemma NextItemRead(t: Text, v: Json, more: Text, others: seq<Json>, a: Text)
    requires ReadValue(t) == Some(Parsed(v, [COMMA] + more)) && ReadItems(more) == Some(Parsed(others, a))
    ensures ReadItems(t) == Some(Parsed([v] + others, a))
  {
    hide ReadValue;
    NothingSkipped([COMMA] + more);
    assert ([COMMA] + more)[1..] == more;
  }

  lemma {:induction false} ItemsReadBack(items: seq<Json>, a: Text)
    requires AllPrintable(items) && |items| > 0
    ensures ReadItems(PrintItems(items) + [CLOSE_BRACKET] + a) == Some(Parsed(items, a))
    decreases items, 0
  {
    hide Print, PrintItems, ReadValue, ReadItems, Skip, Supported, WellFormed;
    var t := PrintItems(items) + [CLOSE_BRACKET] + a;
    FirstItem(items, a);
    PrintReadsBack(items[0], AfterItem(items, a));
    if |items| > 1 {
      ItemsReadBack(items[1..], a);
      NextItemRead(t, items[0], PrintItems(items[1..]) + [CLOSE_BRACKET] + a, items[1..], a);
      assert items == [items[0]] + items[1..];
    } else {
      LastItemRead(t, items[0], a);
      assert items == [items[0]];
    }
  }

  lemma {:induction false} ObjectReadsBack(fields: seq<Field>, a: Text)
    requires FieldsPrintable(fields) && Supported(Object(fields))
    ensures ReadValue(Print(Object(fields)) + a) == Some(Parsed(Object(fields), a))
    decreases fields, 1
  {
    hide ReadItems, ReadFields, ReadWord, ReadUnits;
    var t := Print(Object(fields)) + a;
    var inside := PrintFields(fields) + [CLOSE_BRACE] + a;
    Wrapped(OPEN_BRACE, PrintFields(fields), CLOSE_BRACE, a);
    NothingSkipped(t);
    if fields == [] {
      EmptyPrintsNothing();
      assert inside == [CLOSE_BRACE] + a;
      assert inside[1..] == a;
    } else {
      FirstFieldLeads(fields);
      assert inside[0] == PrintFields(fields)[0];
      FieldsReadBack(fields, a);
    }
    NothingSkipped(inside);
  }

  lemma {:induction false} FieldReadsBack(f: Field, after: Text)
    requires Supported(f.value) && WellFormed(f.value) && Ends(after)
    ensures ReadField(Quoted(f.key) + ([COLON] + (Print(f.value) + after))) == Some(Parsed(f, after))
    decreases f.value, 1
  {
    var value := Print(f.value) + after;
    var colon := [COLON] + value;
    var t := Quoted(f.key) + colon;
    assert t[0] == QUOTE && t[1..] == Escaped(f.key) + [QUOTE] + colon;
    EscapedReadsBack(f.key, colon);
    NothingSkipped(t);
    NothingSkipped(colon);
    assert colon[1..] == value;
    PrintReadsBack(f.value, after);
    hide Print, Escaped, ReadUnits, ReadValue;
  }

  lemma LastFieldRead(t: Text, f: Field, a: Text)
    requires ReadField(t) == Some(Parsed(f, [CLOSE_BRACE] + a))
    ensures ReadFields(t) == Some(Parsed([f], a))
  {
    hide ReadField;
    NothingSkipped([CLOSE_BRACE] + a);
    assert ([CLOSE_BRACE] + a)[1..] == a;
  }

  lemma NextFieldRead(t: Text, f: Field, more: Text, others: seq<Field>, a: Text)
    requires ReadField(t) == Some(Parsed(f, [COMMA] + more)) && ReadFields(more) == Some(Parsed(others, a))
    ensures ReadFields(t) == Some(Parsed([f] + others, a))
  {
    hide ReadField;
    NothingSkipped([COMMA] + more);
    assert ([COMMA] + more)[1..] == more;
  }

  lemma {:induction false} FieldsReadBack(fields: seq<Field>, a: Text)
    requires FieldsPrintable(fields) && |fields| > 0
    ensures ReadFields(PrintFields(fields) + [CLOSE_BRACE] + a) == Some(Parsed(fields, a))
    decreases fields, 0
  {
    hide Print, PrintFields, ReadField, ReadFields, Skip, Supported, WellFormed, Quoted;
    var t := PrintFields(fields) + [CLOSE_BRACE] + a;
    FirstField(fields, a);
    FieldReadsBack(fields[0], AfterField(fields, a));
    if |fields| > 1 {
      FieldsReadBack(fields[1..], a);
      NextFieldRead(t, fields[0], PrintFields(fields[1..]) + [CLOSE_BRACE] + a, fields[1..], a);
      assert fields == [fields[0]] + fields[1..];
    } else {
      LastFieldRead(t, fields[0], a);
      assert fields == [fields[0]];
    }
  }

  /** So the printed text of a value is a JSON text, and means that value. */
  lemma TextReadsBack(v: Json)
    requires Supported(v) && WellFormed(v)
    ensures ReadText(Print(v)) == Some(v)
  {
    assert Print(v) + [] == Print(v);
    PrintReadsBack(v, []);
  }

  /** And no other value prints as a text that starts the same way and goes on so. */
  lemma PrintIsReadable(v: Json, w: Json, a: Text, b: Text)
    requires Supported(v) && Supported(w) && WellFormed(v) && WellFormed(w) && Ends(a) && Ends(b)
    requires Print(v) + a == Print(w) + b
    ensures v == w && a == b
  {
    PrintReadsBack(v, a);
    PrintReadsBack(w, b);
  }
}
