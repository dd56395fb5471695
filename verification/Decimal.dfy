/**
 * Atomic amounts as texts: BigInt's toString, the TypeScript pattern
 * 0|[1-9][0-9]* and the Rust parser in front of u64::from_str
 * (agent-orchestrator/src/settlement-invoice.ts, backend/src/settlement_invoice.rs).
 */
module Decimal {
  import opened Wrappers
  import opened CanonicalJson

  const U64_MAX: nat := 0xffff_ffff_ffff_ffff

  predicate IsDigit(u: Unit) {
    0x30 <= u <= 0x39
  }

  predicate AllDigits(t: Text) {
    forall i :: 0 <= i < |t| ==> IsDigit(t[i])
  }

  function Value(t: Text): nat
    requires AllDigits(t)
  {
    if |t| == 0 then 0 else 10 * Value(t[..|t| - 1]) + (t[|t| - 1] - 0x30)
  }

  function Printed(n: nat): (t: Text)
    ensures |t| > 0 && AllDigits(t)
  {
    if n < 10 then [0x30 + n] else Printed(n / 10) + [0x30 + n % 10]
  }

  /** The TypeScript parser. */
  function ParseAtomic(t: Text): Option<nat> {
    if |t| > 0 && AllDigits(t) && (|t| == 1 || t[0] != 0x30) then Some(Value(t)) else None
  }

  /** u64::from_str: an optional plus sign, at least one digit, no overflow. */
  function ParseU64(t: Text): Option<nat> {
    var digits := if |t| > 0 && t[0] == 0x2b then t[1..] else t;
    if |digits| > 0 && AllDigits(digits) && Value(digits) <= U64_MAX then Some(Value(digits)) else None
  }

  /** The Rust parser. */
  function ParseAmount(t: Text): (r: Option<nat>)
    ensures r.Some? ==> r.value <= U64_MAX
  {
    if |t| == 0 || (|t| > 1 && t[0] == 0x30) then None else ParseU64(t)
  }

  lemma {:induction false} DecimalShape(n: nat)
    ensures Value(Printed(n)) == n && (|Printed(n)| == 1 || Printed(n)[0] != 0x30)
  {
    if n >= 10 {
      DecimalShape(n / 10);
      var t := Printed(n);
      assert t[..|t| - 1] == Printed(n / 10);
      assert n / 10 > 0;
      assert |Printed(n / 10)| == 1 ==> Printed(n / 10)[0] != 0x30;
    }
  }

  lemma {:induction false} CanonicalDigits(t: Text)
    requires |t| > 0 && AllDigits(t) && (|t| == 1 || t[0] != 0x30)
    ensures Printed(Value(t)) == t && (|t| > 1 ==> Value(t) >= 10)
  {
    if |t| > 1 {
      var init := t[..|t| - 1];
      CanonicalDigits(init);
      assert Value(init) >= 1;
      assert Value(t) / 10 == Value(init);
      assert t == init + [t[|t| - 1]];
    }
  }

  /** The printed amount is the one text that parses back to it. */
  lemma ParsesExactlyThePrinted(t: Text, n: nat)
    ensures ParseAtomic(t) == Some(n) <==> t == Printed(n)
  {
    DecimalShape(n);
    if ParseAtomic(t) == Some(n) {
      CanonicalDigits(t);
    }
  }

  predicate Signed(t: Text) {
    |t| > 1 && t[0] == 0x2b && AllDigits(t[1..]) && Value(t[1..]) <= U64_MAX
  }

  /** The Rust parser also takes a plus sign, which the TypeScript one refuses, and stops at 64 bits. */
  lemma ParsersAgreeExactly(t: Text)
    ensures ParseAmount(t) == ParseAtomic(t)
      <==> !Signed(t) && (ParseAtomic(t).Some? ==> ParseAtomic(t).value <= U64_MAX)
  {
    if |t| > 0 && t[0] == 0x2b {
      assert !IsDigit(t[0]);
    }
  }
}
