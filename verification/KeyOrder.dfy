/**
 * The two orders in which object keys are sorted: JavaScript compares UTF-16
 * code units, Rust compares UTF-8 bytes, which is the order of code points.
 */
module KeyOrder {
  import opened CanonicalJson

  datatype Printer = TypeScript | Rust

  /** Ranks of code units; the second puts surrogates above every other unit, as code points are. */
  function Rank(p: Printer, u: Unit): nat {
    if p == TypeScript || u < 0xd800 then u
    else if u < 0xe000 then u + 0x2000
    else u - 0x800
  }

  predicate KeyLe(p: Printer, s: Text, t: Text) {
    if |s| == 0 then true
    else if |t| == 0 then false
    else if s[0] == t[0] then KeyLe(p, s[1..], t[1..])
    else Rank(p, s[0]) < Rank(p, t[0])
  }

  lemma {:induction false} KeyLeIsTotal(p: Printer, s: Text, t: Text)
    ensures KeyLe(p, s, t) || KeyLe(p, t, s)
  {
    if |s| > 0 && |t| > 0 && s[0] == t[0] {
      KeyLeIsTotal(p, s[1..], t[1..]);
    }
  }

  lemma {:induction false} KeyLeIsTransitive(p: Printer, s: Text, t: Text, u: Text)
    requires KeyLe(p, s, t) && KeyLe(p, t, u)
    ensures KeyLe(p, s, u)
  {
    if |s| > 0 && s[0] == t[0] && t[0] == u[0] {
      KeyLeIsTransitive(p, s[1..], t[1..], u[1..]);
    }
  }

  lemma {:induction false} KeyLeDecides(p: Printer, s: Text, t: Text)
    requires KeyLe(p, s, t) && KeyLe(p, t, s)
    ensures s == t
  {
    if |s| > 0 {
      KeyLeDecides(p, s[1..], t[1..]);
      assert s == [s[0]] + s[1..] && t == [t[0]] + t[1..];
    }
  }

  // ---- why the second order is that of code points ----

  predicate WellFormedText(s: Text) {
    |s| == 0 || (if Pair(s) then WellFormedText(s[2..]) else !High(s[0]) && !Low(s[0]) && WellFormedText(s[1..]))
  }

  /** A high surrogate is followed by a low one, and a low one follows a high one. */
  predicate PairedAt(s: Text, i: nat)
    requires i < |s|
  {
    && (0xd800 <= s[i] < 0xdc00 ==> i + 1 < |s| && 0xdc00 <= s[i + 1] < 0xe000)
    && (0xdc00 <= s[i] < 0xe000 ==> i > 0 && 0xd800 <= s[i - 1] < 0xdc00)
  }

  predicate Paired(s: Text) {
    forall i :: 0 <= i < |s| ==> PairedAt(s, i)
  }

  lemma PairedShift(s: Text, n: nat)
    requires 1 <= n <= |s| && !High(s[n - 1])
    ensures forall i :: n <= i < |s| ==> (PairedAt(s, i) <==> PairedAt(s[n..], i - n))
  {
    forall i | n <= i < |s| ensures PairedAt(s, i) <==> PairedAt(s[n..], i - n) {
      assert s[n..][i - n] == s[i];
    }
  }

  lemma PairedRest(s: Text, n: nat)
    requires 1 <= n <= |s| && !High(s[n - 1])
    ensures Paired(s) <==> Paired(s[n..]) && forall i :: 0 <= i < n ==> PairedAt(s, i)
  {
    hide PairedAt;
    PairedShift(s, n);
    if Paired(s) {
      forall i | 0 <= i < |s[n..]| ensures PairedAt(s[n..], i) {
        assert PairedAt(s, i + n) <==> PairedAt(s[n..], i + n - n);
      }
    }
  }

  /** Reading from the left finds exactly the texts whose surrogates are paired. */
  lemma {:induction false} WellFormedExactly(s: Text)
    ensures WellFormedText(s) <==> Paired(s)
    decreases |s|
  {
    if |s| > 0 {
      if Pair(s) {
        WellFormedExactly(s[2..]);
        PairedRest(s, 2);
        assert PairedAt(s, 0) && PairedAt(s, 1);
      } else if High(s[0]) || Low(s[0]) {
        assert !PairedAt(s, 0);
      } else {
        WellFormedExactly(s[1..]);
        PairedRest(s, 1);
        assert PairedAt(s, 0);
      }
    }
  }

  function SurrogatePoint(high: nat, low: nat): nat
    requires 0xd800 <= high && 0xdc00 <= low
  {
    0x10000 + (high - 0xd800) * 0x400 + (low - 0xdc00)
  }

  function CodePoints(s: Text): (r: seq<nat>)
    ensures Points(r)
  {
    if |s| == 0 then []
    else if Pair(s) then [SurrogatePoint(s[0], s[1])] + CodePoints(s[2..])
    else [s[0]] + CodePoints(s[1..])
  }

  predicate PointsLe(s: seq<nat>, t: seq<nat>) {
    if |s| == 0 then true
    else if |t| == 0 then false
    else if s[0] == t[0] then PointsLe(s[1..], t[1..])
    else s[0] < t[0]
  }

  lemma {:induction false} RustOrderIsCodePointOrder(s: Text, t: Text)
    requires WellFormedText(s) && WellFormedText(t)
    ensures KeyLe(Rust, s, t) <==> PointsLe(CodePoints(s), CodePoints(t))
  {
    if |s| > 0 && |t| > 0 {
      var a, b := CodePoints(s), CodePoints(t);
      if Pair(s) && Pair(t) {
        assert a[1..] == CodePoints(s[2..]) && b[1..] == CodePoints(t[2..]);
        assert s[1..][1..] == s[2..] && t[1..][1..] == t[2..];
        if s[0] == t[0] && s[1] == t[1] {
          RustOrderIsCodePointOrder(s[2..], t[2..]);
        }
      } else if !Pair(s) && !Pair(t) {
        assert a[1..] == CodePoints(s[1..]) && b[1..] == CodePoints(t[1..]);
        if s[0] == t[0] {
          RustOrderIsCodePointOrder(s[1..], t[1..]);
        }
      } else {
        assert a[0] != b[0];
      }
    }
  }

  /** Code units are their own ranks. */
  lemma {:induction false} UnitsAreRanks(s: Text, t: Text)
    ensures KeyLe(TypeScript, s, t) <==> PointsLe(s, t)
  {
    if |s| > 0 && |t| > 0 && s[0] == t[0] {
      UnitsAreRanks(s[1..], t[1..]);
    }
  }

  // ---- and that of the bytes that encode them ----

  /** UTF-8, section 3 of RFC 3629. */
  function Utf8(c: nat): (bytes: seq<nat>)
    requires c < 0x110000
    ensures 1 <= |bytes| <= 4
    ensures if |bytes| == 1 then bytes[0] < 0x80 else 0xc2 <= bytes[0] < 0xf5
    ensures forall i :: 1 <= i < |bytes| ==> 0x80 <= bytes[i] < 0xc0
  {
    if c < 0x80 then [c]
    else if c < 0x800 then [0xc0 + c / 64, 0x80 + c % 64]
    else if c < 0x10000 then [0xe0 + c / 4096, 0x80 + c / 64 % 64, 0x80 + c % 64]
    else [0xf0 + c / 262144, 0x80 + c / 4096 % 64, 0x80 + c / 64 % 64, 0x80 + c % 64]
  }

  predicate Points(s: seq<nat>) {
    forall i :: 0 <= i < |s| ==> s[i] < 0x110000
  }

  function Utf8All(s: seq<nat>): seq<nat>
    requires Points(s)
  {
    if |s| == 0 then [] else Utf8(s[0]) + Utf8All(s[1..])
  }

  /** Strictly before, and already at a byte both have. */
  predicate Splits(s: seq<nat>, t: seq<nat>) {
    |s| > 0 && |t| > 0 && (s[0] < t[0] || (s[0] == t[0] && Splits(s[1..], t[1..])))
  }

  lemma {:induction false} SplitsDecides(s: seq<nat>, t: seq<nat>, x: seq<nat>, y: seq<nat>)
    requires Splits(s, t)
    ensures PointsLe(s + x, t + y) && !PointsLe(t + y, s + x)
  {
    if s[0] == t[0] {
      SplitsDecides(s[1..], t[1..], x, y);
      assert (s + x)[1..] == s[1..] + x && (t + y)[1..] == t[1..] + y;
    }
  }

  lemma {:induction false} SplitsAt(s: seq<nat>, t: seq<nat>, k: nat)
    requires k < |s| && k < |t| && s[k] < t[k] && forall i :: 0 <= i < k ==> s[i] == t[i]
    ensures Splits(s, t)
  {
    if k > 0 {
      SplitsAt(s[1..], t[1..], k - 1);
    }
  }

  lemma SmallerSplits(c: nat, d: nat)
    requires c < d < 0x110000
    ensures Splits(Utf8(c), Utf8(d))
  {
    hide Splits;
    SixBits(c, d);
    SplitsAt(Utf8(c), Utf8(d),
             if Utf8(c)[0] != Utf8(d)[0] then 0
             else if c < 0x800 then 1
             else if c < 0x10000 then if c / 64 != d / 64 then 1 else 2
             else if c / 4096 != d / 4096 then 1
             else if c / 64 != d / 64 then 2 else 3);
  }

  /** Comparing numbers is comparing their digits to base 64. */
  lemma SixBits(c: nat, d: nat)
    requires c < d
    ensures c / 64 <= d / 64 && (c / 64 == d / 64 ==> c % 64 < d % 64)
    ensures c / 4096 <= d / 4096 && c / 262144 <= d / 262144
    ensures c / 4096 == d / 4096 && c / 64 != d / 64 ==> c / 64 % 64 < d / 64 % 64
    ensures c / 262144 == d / 262144 && c / 4096 != d / 4096 ==> c / 4096 % 64 < d / 4096 % 64
  {
    assert c / 64 / 64 == c / 4096 && d / 64 / 64 == d / 4096;
    assert c / 4096 / 64 == c / 262144 && d / 4096 / 64 == d / 262144;
  }

  lemma {:induction false} ByteOrderIsPointOrder(s: seq<nat>, t: seq<nat>)
    requires Points(s) && Points(t)
    ensures PointsLe(Utf8All(s), Utf8All(t)) <==> PointsLe(s, t)
  {
    if |s| > 0 && |t| > 0 {
      var x, y := Utf8All(s[1..]), Utf8All(t[1..]);
      if s[0] < t[0] {
        SmallerSplits(s[0], t[0]);
        SplitsDecides(Utf8(s[0]), Utf8(t[0]), x, y);
      } else if t[0] < s[0] {
        SmallerSplits(t[0], s[0]);
        SplitsDecides(Utf8(t[0]), Utf8(s[0]), y, x);
      } else {
        ByteOrderIsPointOrder(s[1..], t[1..]);
        SamePrefix(Utf8(s[0]), x, y);
      }
    }
  }

  lemma {:induction false} SamePrefix(p: seq<nat>, x: seq<nat>, y: seq<nat>)
    ensures PointsLe(p + x, p + y) <==> PointsLe(x, y)
  {
    if |p| > 0 {
      SamePrefix(p[1..], x, y);
      assert (p + x)[1..] == p[1..] + x && (p + y)[1..] == p[1..] + y;
    } else {
      assert p + x == x && p + y == y;
    }
  }

  /** Rust compares the bytes of the keys. */
  lemma RustOrderIsByteOrder(s: Text, t: Text)
    requires WellFormedText(s) && WellFormedText(t)
    ensures KeyLe(Rust, s, t) <==> PointsLe(Utf8All(CodePoints(s)), Utf8All(CodePoints(t)))
  {
    ByteOrderIsPointOrder(CodePoints(s), CodePoints(t));
    RustOrderIsCodePointOrder(s, t);
  }

  /** At their first difference, exactly one text has a surrogate and the other a unit above them. */
  predicate Swapped(s: Text, t: Text) {
    |s| > 0 && |t| > 0 &&
    if s[0] == t[0] then Swapped(s[1..], t[1..])
    else (0xd800 <= s[0] < 0xe000 && 0xe000 <= t[0]) || (0xd800 <= t[0] < 0xe000 && 0xe000 <= s[0])
  }

  /** These are exactly the pairs the two orders put differently. */
  lemma {:induction false} OrdersDifferExactlyWhenSwapped(s: Text, t: Text)
    ensures Swapped(s, t) <==> (KeyLe(TypeScript, s, t) != KeyLe(Rust, s, t))
  {
    if |s| > 0 && |t| > 0 && s[0] == t[0] {
      OrdersDifferExactlyWhenSwapped(s[1..], t[1..]);
    }
  }
}
