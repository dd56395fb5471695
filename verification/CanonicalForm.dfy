/**
 * Canonical texts compared: both printers are invariant under key order at
 * every depth and injective otherwise, and exactly when they print alike.
 */
module CanonicalForm {
  import opened Wrappers
  import opened Sorting
  import opened CanonicalJson
  import opened JsonReader
  import opened KeyOrder

  function FieldOrder(p: Printer): (Field, Field) -> bool {
    (f: Field, g: Field) => KeyLe(p, f.key, g.key)
  }

  /** The value with the keys of every object sorted. */
  function Normal(p: Printer, v: Json): Json
    decreases v
  {
    match v
    case Array(items) => Array(seq(|items|, i requires 0 <= i < |items| => Normal(p, items[i])))
    case Object(fields) => Object(Sorted(NormalFields(p, fields), FieldOrder(p)))
    case _ => v
  }

  function NormalFields(p: Printer, fields: seq<Field>): (r: seq<Field>)
    ensures |r| == |fields|
    ensures forall i :: 0 <= i < |r| ==> r[i] == Field(fields[i].key, Normal(p, fields[i].value))
    decreases fields
  {
    seq(|fields|, i requires 0 <= i < |fields| => Field(fields[i].key, Normal(p, fields[i].value)))
  }

  /** None stands for the exception on a value JSON cannot hold. */
  function Canonical(p: Printer, v: Json): Option<Text> {
    if Supported(v) then
      NormalIsSupported(p, v);
      Some(Print(Normal(p, v)))
    else None
  }

  lemma {:induction false} NormalIsSupported(p: Printer, v: Json)
    ensures Supported(v) ==> Supported(Normal(p, v))
    decreases v
  {
    match v {
      case Array(items) =>
        forall i | 0 <= i < |items| ensures Supported(items[i]) ==> Supported(Normal(p, items[i])) {
          NormalIsSupported(p, items[i]);
        }
      case Object(fields) =>
        var normal := NormalFields(p, fields);
        forall i | 0 <= i < |fields| ensures Supported(fields[i].value) ==> Supported(normal[i].value) {
          NormalIsSupported(p, fields[i].value);
        }
        if Supported(v) {
          forall f | f in Sorted(normal, FieldOrder(p)) ensures Supported(f.value) {
            assert f in normal;
          }
        }
      case _ =>
    }
  }

  /** Equal up to the order of keys, at every depth. */
  ghost predicate SameUpToKeyOrder(v: Json, w: Json)
    decreases v
  {
    match v
    case Array(items) =>
      && w.Array? && |items| == |w.items|
      && forall i :: 0 <= i < |items| ==> SameUpToKeyOrder(items[i], w.items[i])
    case Object(fields) =>
      && w.Object? && |fields| == |w.fields|
      && (forall i :: 0 <= i < |fields| ==>
            exists j :: 0 <= j < |w.fields| && w.fields[j].key == fields[i].key
              && SameUpToKeyOrder(fields[i].value, w.fields[j].value))
      && (forall j :: 0 <= j < |w.fields| ==> HasKey(fields, w.fields[j].key))
    case _ => v == w
  }

  lemma MatchingField(a: seq<Field>, b: seq<Field>, i: nat) returns (j: nat)
    requires SameUpToKeyOrder(Object(a), Object(b)) && i < |a|
    ensures j < |b| && b[j].key == a[i].key && SameUpToKeyOrder(a[i].value, b[j].value)
  {
    j :| 0 <= j < |b| && b[j].key == a[i].key && SameUpToKeyOrder(a[i].value, b[j].value);
  }

  predicate HasKey(fields: seq<Field>, key: Text) {
    exists i :: 0 <= i < |fields| && fields[i].key == key
  }

  lemma FieldOrderIsTotal(p: Printer)
    ensures TotalOrder(FieldOrder(p))
  {
    forall f: Field, g: Field ensures FieldOrder(p)(f, g) || FieldOrder(p)(g, f) {
      KeyLeIsTotal(p, f.key, g.key);
    }
    forall f: Field, g: Field, h: Field | FieldOrder(p)(f, g) && FieldOrder(p)(g, h) ensures FieldOrder(p)(f, h) {
      KeyLeIsTransitive(p, f.key, g.key, h.key);
    }
  }

  /** With distinct keys, the key order decides and no field repeats. */
  lemma DistinctKeysDecide(p: Printer, fields: seq<Field>)
    requires DistinctKeys(fields)
    ensures Decides(fields, FieldOrder(p)) && NoRepeats(fields)
  {
    forall f, g | f in fields && g in fields && FieldOrder(p)(f, g) && FieldOrder(p)(g, f) ensures f == g {
      KeyLeDecides(p, f.key, g.key);
    }
  }

  lemma SortedKeysStayDistinct(p: Printer, fields: seq<Field>)
    requires DistinctKeys(fields)
    ensures DistinctKeys(Sorted(fields, FieldOrder(p)))
  {
    var r := Sorted(fields, FieldOrder(p));
    DistinctKeysDecide(p, fields);
    SortedNoRepeats(fields, FieldOrder(p));
    forall i, j | 0 <= i < j < |r| ensures r[i].key != r[j].key {
      assert r[i] in fields && r[j] in fields && r[i] != r[j];
    }
  }

  lemma {:induction false} NormalIsWellFormed(p: Printer, v: Json)
    requires WellFormed(v)
    ensures WellFormed(Normal(p, v))
    decreases v
  {
    match v {
      case Array(items) =>
        forall i | 0 <= i < |items| ensures WellFormed(Normal(p, items[i])) {
          NormalIsWellFormed(p, items[i]);
        }
      case Object(fields) =>
        var normal := NormalFields(p, fields);
        forall i | 0 <= i < |fields| ensures WellFormed(normal[i].value) {
          NormalIsWellFormed(p, fields[i].value);
        }
        SortedKeysStayDistinct(p, normal);
        forall f | f in Sorted(normal, FieldOrder(p)) ensures WellFormed(f.value) {
          assert f in normal;
        }
      case _ =>
    }
  }

  /** Key order never shows in the normal form ... */
  lemma {:induction false} SameMeansSameNormal(p: Printer, v: Json, w: Json)
    requires WellFormed(v) && WellFormed(w) && SameUpToKeyOrder(v, w)
    ensures Normal(p, v) == Normal(p, w)
    decreases v
  {
    match v {
      case Array(items) =>
        forall i | 0 <= i < |items| ensures Normal(p, items[i]) == Normal(p, w.items[i]) {
          SameMeansSameNormal(p, items[i], w.items[i]);
        }
      case Object(fields) =>
        var a, b := NormalFields(p, fields), NormalFields(p, w.fields);
        forall i | 0 <= i < |a| ensures a[i] in b {
          var j :| 0 <= j < |b| && w.fields[j].key == fields[i].key
            && SameUpToKeyOrder(fields[i].value, w.fields[j].value);
          SameMeansSameNormal(p, fields[i].value, w.fields[j].value);
          assert b[j] == a[i];
        }
        forall j | 0 <= j < |b| ensures HasKey(a, b[j].key) {
          assert HasKey(fields, w.fields[j].key);
          var i :| 0 <= i < |fields| && fields[i].key == w.fields[j].key;
          assert a[i].key == b[j].key;
        }
        SameFieldsSortAlike(p, a, b);
      case _ =>
    }
  }

  lemma SameFieldsSortAlike(p: Printer, a: seq<Field>, b: seq<Field>)
    requires DistinctKeys(a) && DistinctKeys(b)
    requires forall i :: 0 <= i < |a| ==> a[i] in b
    requires forall j :: 0 <= j < |b| ==> HasKey(a, b[j].key)
    ensures Sorted(a, FieldOrder(p)) == Sorted(b, FieldOrder(p))
  {
    DistinctKeysDecide(p, a);
    DistinctKeysDecide(p, b);
    forall j | 0 <= j < |b| ensures b[j] in a {
      assert HasKey(a, b[j].key);
      var i :| 0 <= i < |a| && a[i].key == b[j].key;
      assert a[i] in b;
    }
    SameElements(a, b);
    FieldOrderIsTotal(p);
    SortedAlike(a, b, FieldOrder(p));
  }

  lemma NormalObjectsShareFields(p: Printer, v: seq<Field>, w: seq<Field>)
    requires Normal(p, Object(v)) == Normal(p, Object(w))
    ensures |v| == |w| && forall f :: f in NormalFields(p, v) <==> f in NormalFields(p, w)
  {
    var a, b := NormalFields(p, v), NormalFields(p, w);
    assert Sorted(a, FieldOrder(p)) == Sorted(b, FieldOrder(p));
    assert forall f :: f in Sorted(a, FieldOrder(p)) <==> f in a;
    assert forall f :: f in Sorted(b, FieldOrder(p)) <==> f in b;
  }

  lemma SharedField(p: Printer, v: seq<Field>, w: seq<Field>, i: nat) returns (j: nat)
    requires i < |v| && forall f :: f in NormalFields(p, v) ==> f in NormalFields(p, w)
    ensures j < |w| && w[j].key == v[i].key && Normal(p, w[j].value) == Normal(p, v[i].value)
  {
    var a, b := NormalFields(p, v), NormalFields(p, w);
    assert a[i] in b;
    j :| 0 <= j < |b| && b[j] == a[i];
  }

  lemma WellFormedFields(v: Json, i: nat)
    requires WellFormed(v) && v.Object? && i < |v.fields|
    ensures WellFormed(v.fields[i].value)
  {
  }

  /** ... and everything else does. */
  lemma {:induction false} SameNormalMeansSame(p: Printer, v: Json, w: Json)
    requires WellFormed(v) && WellFormed(w) && Normal(p, v) == Normal(p, w)
    ensures SameUpToKeyOrder(v, w)
    decreases v
  {
    match v {
      case Array(items) =>
        forall i | 0 <= i < |items| ensures SameUpToKeyOrder(items[i], w.items[i]) {
          assert Normal(p, v).items[i] == Normal(p, w).items[i];
          SameNormalMeansSame(p, items[i], w.items[i]);
        }
      case Object(fields) =>
        assert w.Object?;
        hide WellFormed, Normal, NormalFields, Sorted;
        NormalObjectsShareFields(p, fields, w.fields);
        forall i | 0 <= i < |fields|
          ensures exists j ::
            && 0 <= j < |w.fields| && w.fields[j].key == fields[i].key
            && SameUpToKeyOrder(fields[i].value, w.fields[j].value)
        {
          var j := SharedField(p, fields, w.fields, i);
          WellFormedFields(v, i);
          WellFormedFields(w, j);
          SameNormalMeansSame(p, fields[i].value, w.fields[j].value);
        }
        forall j | 0 <= j < |w.fields| ensures HasKey(fields, w.fields[j].key) {
          var i := SharedField(p, w.fields, fields, j);
          assert fields[i].key == w.fields[j].key;
        }
      case _ =>
    }
  }

  /** The printer is invariant under key order at every depth, and injective otherwise. */
  lemma CanonicalDecidesSameness(p: Printer, v: Json, w: Json)
    requires WellFormed(v) && WellFormed(w) && Supported(v) && Supported(w)
    ensures Canonical(p, v) == Canonical(p, w) <==> SameUpToKeyOrder(v, w)
  {
    NormalIsSupported(p, v);
    NormalIsSupported(p, w);
    NormalIsWellFormed(p, v);
    NormalIsWellFormed(p, w);
    if Canonical(p, v) == Canonical(p, w) {
      var x, y := Print(Normal(p, v)), Print(Normal(p, w));
      assert x + [] == x && y + [] == y;
      PrintIsReadable(Normal(p, v), Normal(p, w), [], []);
      SameNormalMeansSame(p, v, w);
    }
    if SameUpToKeyOrder(v, w) {
      SameMeansSameNormal(p, v, w);
    }
  }

  // ---- what the printed text says ----

  /** The first key goes before the second: by code units, or by the bytes of UTF-8. */
  predicate Before(p: Printer, s: Text, t: Text) {
    match p
    case TypeScript => PointsLe(s, t)
    case Rust => WellFormedText(s) && WellFormedText(t) ==> PointsLe(Utf8All(CodePoints(s)), Utf8All(CodePoints(t)))
  }

  /** The keys of every object climb, at every depth. */
  ghost predicate KeysClimb(p: Printer, v: Json)
    decreases v
  {
    match v
    case Array(items) => forall i :: 0 <= i < |items| ==> KeysClimb(p, items[i])
    case Object(fields) =>
      && (forall i :: 0 <= i < |fields| ==> KeysClimb(p, fields[i].value))
      && (forall i, j :: 0 <= i < j < |fields| ==> Before(p, fields[i].key, fields[j].key))
    case _ => true
  }

  lemma KeyLeIsBefore(p: Printer, s: Text, t: Text)
    requires KeyLe(p, s, t)
    ensures Before(p, s, t)
  {
    if p == TypeScript {
      UnitsAreRanks(s, t);
    } else if WellFormedText(s) && WellFormedText(t) {
      RustOrderIsByteOrder(s, t);
    }
  }

  lemma {:induction false} NormalClimbs(p: Printer, v: Json)
    ensures KeysClimb(p, Normal(p, v))
    decreases v
  {
    hide Before;
    match v {
      case Array(items) =>
        forall i | 0 <= i < |items| ensures KeysClimb(p, Normal(p, items[i])) {
          NormalClimbs(p, items[i]);
        }
      case Object(fields) =>
        var normal := NormalFields(p, fields);
        var sorted := Sorted(normal, FieldOrder(p));
        forall i | 0 <= i < |fields| ensures KeysClimb(p, normal[i].value) {
          NormalClimbs(p, fields[i].value);
        }
        forall i | 0 <= i < |sorted| ensures KeysClimb(p, sorted[i].value) {
          assert sorted[i] in normal;
        }
        FieldOrderIsTotal(p);
        SortedInOrder(normal, FieldOrder(p));
        forall i, j | 0 <= i < j < |sorted| ensures Before(p, sorted[i].key, sorted[j].key) {
          assert FieldOrder(p)(sorted[i], sorted[j]);
          KeyLeIsBefore(p, sorted[i].key, sorted[j].key);
        }
      case _ =>
    }
  }

  lemma {:induction false} NormalIsSame(p: Printer, v: Json)
    ensures SameUpToKeyOrder(v, Normal(p, v))
    decreases v
  {
    match v {
      case Array(items) =>
        forall i | 0 <= i < |items| ensures SameUpToKeyOrder(items[i], Normal(p, items[i])) {
          NormalIsSame(p, items[i]);
        }
      case Object(fields) =>
        var normal := NormalFields(p, fields);
        var sorted := Sorted(normal, FieldOrder(p));
        forall i | 0 <= i < |fields|
          ensures exists j ::
            && 0 <= j < |sorted| && sorted[j].key == fields[i].key
            && SameUpToKeyOrder(fields[i].value, sorted[j].value)
        {
          NormalIsSame(p, fields[i].value);
          assert normal[i] in sorted;
        }
        forall j | 0 <= j < |sorted| ensures HasKey(fields, sorted[j].key) {
          assert sorted[j] in normal;
          var i :| 0 <= i < |normal| && normal[i] == sorted[j];
          assert fields[i].key == sorted[j].key;
        }
      case _ =>
    }
  }

  /**
   * The canonical text against the grammar: it is a JSON text, it means the
   * value it was printed from up to the order of keys, and its keys climb.
   */
  lemma CanonicalReadsBack(p: Printer, v: Json)
    requires WellFormed(v) && Supported(v)
    ensures Canonical(p, v).Some? && ReadText(Canonical(p, v).value).Some?
    ensures var w := ReadText(Canonical(p, v).value).value;
      SameUpToKeyOrder(v, w) && KeysClimb(p, w) && WellFormed(w)
  {
    NormalIsSupported(p, v);
    NormalIsWellFormed(p, v);
    NormalIsSame(p, v);
    NormalClimbs(p, v);
    hide Normal, SameUpToKeyOrder, KeysClimb, WellFormed;
    TextReadsBack(Normal(p, v));
  }

  // ---- the two printers ----

  /** No object, at any depth, has two keys that the two orders put differently. */
  ghost predicate OrdersAgree(v: Json)
    decreases v
  {
    match v
    case Array(items) => forall i :: 0 <= i < |items| ==> OrdersAgree(items[i])
    case Object(fields) =>
      && (forall i :: 0 <= i < |fields| ==> OrdersAgree(fields[i].value))
      && (forall i, j :: 0 <= i < |fields| && 0 <= j < |fields| ==> !Swapped(fields[i].key, fields[j].key))
    case _ => true
  }

  lemma {:induction false} AgreeingOrdersSortAlike(a: seq<Field>)
    requires forall f, g :: f in a && g in a ==> !Swapped(f.key, g.key)
    ensures Sorted(a, FieldOrder(TypeScript)) == Sorted(a, FieldOrder(Rust))
  {
    if |a| > 0 {
      AgreeingOrdersSortAlike(a[1..]);
      AgreeingOrdersInsertAlike(a[0], Sorted(a[1..], FieldOrder(Rust)));
    }
  }

  lemma {:induction false} AgreeingOrdersInsertAlike(f: Field, s: seq<Field>)
    requires forall g :: g in s ==> !Swapped(f.key, g.key)
    ensures Insert(f, s, FieldOrder(TypeScript)) == Insert(f, s, FieldOrder(Rust))
  {
    if |s| > 0 {
      OrdersDifferExactlyWhenSwapped(f.key, s[0].key);
      AgreeingOrdersInsertAlike(f, s[1..]);
    }
  }

  lemma SortedAlikeMeansAgreeing(s: seq<Field>, f: Field, g: Field)
    requires InOrder(s, FieldOrder(TypeScript)) && InOrder(s, FieldOrder(Rust)) && f in s && g in s
    ensures !Swapped(f.key, g.key)
  {
    var i :| 0 <= i < |s| && s[i] == f;
    var j :| 0 <= j < |s| && s[j] == g;
    OrdersDifferExactlyWhenSwapped(f.key, g.key);
    OrdersDifferExactlyWhenSwapped(g.key, f.key);
    assert i < j ==> FieldOrder(TypeScript)(s[i], s[j]) && FieldOrder(Rust)(s[i], s[j]);
    assert j < i ==> FieldOrder(TypeScript)(s[j], s[i]) && FieldOrder(Rust)(s[j], s[i]);
    SwappedIsSymmetric(f.key, g.key);
    SwappedIsIrreflexive(f.key);
  }

  lemma {:induction false} SwappedIsSymmetric(s: Text, t: Text)
    ensures Swapped(s, t) == Swapped(t, s)
  {
    if |s| > 0 && |t| > 0 && s[0] == t[0] {
      SwappedIsSymmetric(s[1..], t[1..]);
    }
  }

  lemma {:induction false} SwappedIsIrreflexive(s: Text)
    ensures !Swapped(s, s)
  {
    if |s| > 0 {
      SwappedIsIrreflexive(s[1..]);
    }
  }

  // ---- numbers ----

  /** How a printer writes the number that a token stands for. */
  type Spelling = Text -> Text

  ghost predicate IsSpelling(f: Spelling) {
    forall t :: NumberToken(t) ==> NumberToken(f(t))
  }

  /** The value with every number as that printer writes it. */
  function Spelled(f: Spelling, v: Json): Json
    decreases v
  {
    match v
    case Number(token) => Number(f(token))
    case Array(items) => Array(seq(|items|, i requires 0 <= i < |items| => Spelled(f, items[i])))
    case Object(fields) => Object(SpelledFields(f, fields))
    case _ => v
  }

  function SpelledFields(f: Spelling, fields: seq<Field>): (r: seq<Field>)
    ensures |r| == |fields|
    ensures forall i :: 0 <= i < |r| ==> r[i] == Field(fields[i].key, Spelled(f, fields[i].value))
    decreases fields
  {
    seq(|fields|, i requires 0 <= i < |fields| => Field(fields[i].key, Spelled(f, fields[i].value)))
  }

  /** Every number of the value is written alike by both. */
  ghost predicate SpellingsAgree(v: Json, f: Spelling, g: Spelling)
    decreases v
  {
    match v
    case Number(token) => f(token) == g(token)
    case Array(items) => forall i :: 0 <= i < |items| ==> SpellingsAgree(items[i], f, g)
    case Object(fields) => forall i :: 0 <= i < |fields| ==> SpellingsAgree(fields[i].value, f, g)
    case _ => true
  }

  lemma {:induction false} SpelledIsPrintable(f: Spelling, v: Json)
    requires IsSpelling(f) && WellFormed(v) && Supported(v)
    ensures WellFormed(Spelled(f, v)) && Supported(Spelled(f, v))
    decreases v
  {
    match v {
      case Array(items) =>
        forall i | 0 <= i < |items| ensures WellFormed(Spelled(f, items[i])) && Supported(Spelled(f, items[i])) {
          SpelledIsPrintable(f, items[i]);
        }
      case Object(fields) =>
        var spelled := SpelledFields(f, fields);
        forall i | 0 <= i < |fields| ensures WellFormed(spelled[i].value) && Supported(spelled[i].value) {
          SpelledIsPrintable(f, fields[i].value);
        }
      case _ =>
    }
  }

  /** A spelling that changes no number of the value changes nothing. */
  lemma {:induction false} SpelledAlike(v: Json, f: Spelling, g: Spelling)
    requires SpellingsAgree(v, f, g)
    ensures Spelled(f, v) == Spelled(g, v)
    decreases v
  {
    match v {
      case Array(items) =>
        forall i | 0 <= i < |items| ensures Spelled(f, items[i]) == Spelled(g, items[i]) {
          SpelledAlike(items[i], f, g);
        }
      case Object(fields) =>
        forall i | 0 <= i < |fields| ensures Spelled(f, fields[i].value) == Spelled(g, fields[i].value) {
          SpelledAlike(fields[i].value, f, g);
        }
        assert SpelledFields(f, fields) == SpelledFields(g, fields);
      case _ =>
    }
  }

  /** Spelling leaves the keys alone. */
  lemma {:induction false} SpellingKeepsOrders(f: Spelling, v: Json)
    ensures OrdersAgree(Spelled(f, v)) <==> OrdersAgree(v)
    decreases v
  {
    match v {
      case Array(items) =>
        forall i | 0 <= i < |items| ensures OrdersAgree(Spelled(f, v).items[i]) <==> OrdersAgree(items[i]) {
          SpellingKeepsOrders(f, items[i]);
        }
      case Object(fields) =>
        var spelled := SpelledFields(f, fields);
        forall i | 0 <= i < |fields| ensures OrdersAgree(spelled[i].value) <==> OrdersAgree(fields[i].value) {
          SpellingKeepsOrders(f, fields[i].value);
        }
        assert forall i :: 0 <= i < |fields| ==> spelled[i].key == fields[i].key;
      case _ =>
    }
  }

  lemma {:induction false} AgreeingMeansSameNormal(v: Json)
    requires OrdersAgree(v)
    ensures Normal(TypeScript, v) == Normal(Rust, v)
    decreases v
  {
    match v {
      case Array(items) =>
        forall i | 0 <= i < |items| ensures Normal(TypeScript, items[i]) == Normal(Rust, items[i]) {
          AgreeingMeansSameNormal(items[i]);
        }
      case Object(fields) =>
        var a := NormalFields(TypeScript, fields);
        forall i | 0 <= i < |fields| ensures Normal(TypeScript, fields[i].value) == Normal(Rust, fields[i].value) {
          AgreeingMeansSameNormal(fields[i].value);
        }
        assert a == NormalFields(Rust, fields);
        AgreeingOrdersSortAlike(a);
      case _ =>
    }
  }

  /** Fields that sort to the same are field by field the same, when their keys are. */
  lemma SortedAlikeMeansSame(a: seq<Field>, b: seq<Field>)
    requires |a| == |b| && DistinctKeys(a) && forall i :: 0 <= i < |a| ==> a[i].key == b[i].key
    requires Sorted(a, FieldOrder(TypeScript)) == Sorted(b, FieldOrder(Rust))
    ensures a == b && forall i, j :: 0 <= i < |a| && 0 <= j < |a| ==> !Swapped(a[i].key, a[j].key)
  {
    var s := Sorted(a, FieldOrder(TypeScript));
    assert forall f :: f in s <==> f in a;
    assert forall f :: f in s <==> f in b;
    forall i | 0 <= i < |a| ensures a[i] == b[i] {
      assert a[i] in b;
    }
    FieldOrderIsTotal(TypeScript);
    FieldOrderIsTotal(Rust);
    SortedInOrder(a, FieldOrder(TypeScript));
    SortedInOrder(b, FieldOrder(Rust));
    forall i, j | 0 <= i < |a| && 0 <= j < |a| ensures !Swapped(a[i].key, a[j].key) {
      SortedAlikeMeansAgreeing(s, a[i], a[j]);
    }
  }

  lemma {:induction false} SameNormalMeansAgreeing(v: Json, f: Spelling, g: Spelling)
    requires WellFormed(v) && Normal(TypeScript, Spelled(f, v)) == Normal(Rust, Spelled(g, v))
    ensures OrdersAgree(v) && SpellingsAgree(v, f, g)
    decreases v
  {
    match v {
      case Array(items) =>
        forall i | 0 <= i < |items| ensures OrdersAgree(items[i]) && SpellingsAgree(items[i], f, g) {
          assert Normal(TypeScript, Spelled(f, v)).items[i] == Normal(Rust, Spelled(g, v)).items[i];
          SameNormalMeansAgreeing(items[i], f, g);
        }
      case Object(fields) =>
        var a := NormalFields(TypeScript, SpelledFields(f, fields));
        var b := NormalFields(Rust, SpelledFields(g, fields));
        SortedAlikeMeansSame(a, b);
        forall i | 0 <= i < |fields| ensures OrdersAgree(fields[i].value) && SpellingsAgree(fields[i].value, f, g) {
          assert a[i].value == b[i].value;
          SameNormalMeansAgreeing(fields[i].value, f, g);
        }
        forall i, j | 0 <= i < |fields| && 0 <= j < |fields| ensures !Swapped(fields[i].key, fields[j].key) {
          assert !Swapped(a[i].key, a[j].key);
        }
      case _ =>
    }
  }

  /**
   * The ledger and the worker hash the same text exactly when no pair of keys is
   * ordered differently and no number is written differently.
   */
  lemma PrintersAgreeExactly(v: Json, worker: Spelling, ledger: Spelling)
    requires WellFormed(v) && Supported(v) && IsSpelling(worker) && IsSpelling(ledger)
    ensures Canonical(TypeScript, Spelled(worker, v)) == Canonical(Rust, Spelled(ledger, v))
      <==> OrdersAgree(v) && SpellingsAgree(v, worker, ledger)
  {
    SpelledIsPrintable(worker, v);
    SpelledIsPrintable(ledger, v);
    var x, y := Spelled(worker, v), Spelled(ledger, v);
    hide Spelled, SpellingsAgree, OrdersAgree, Normal, Print, WellFormed;
    NormalIsSupported(TypeScript, x);
    NormalIsSupported(Rust, y);
    NormalIsWellFormed(TypeScript, x);
    NormalIsWellFormed(Rust, y);
    if Canonical(TypeScript, x) == Canonical(Rust, y) {
      var s, t := Print(Normal(TypeScript, x)), Print(Normal(Rust, y));
      assert s + [] == s && t + [] == t;
      PrintIsReadable(Normal(TypeScript, x), Normal(Rust, y), [], []);
      SameNormalMeansAgreeing(v, worker, ledger);
    }
    if OrdersAgree(v) && SpellingsAgree(v, worker, ledger) {
      SpelledAlike(v, worker, ledger);
      SpellingKeepsOrders(worker, v);
      AgreeingMeansSameNormal(x);
    }
  }

  /** A key in the private use area next to one outside the basic plane: the texts differ. */
  lemma PrintersMayDisagree(worker: Spelling, ledger: Spelling) returns (v: Json)
    requires IsSpelling(worker) && IsSpelling(ledger)
    ensures WellFormed(v) && Supported(v)
    ensures Canonical(TypeScript, Spelled(worker, v)) != Canonical(Rust, Spelled(ledger, v))
  {
    var fields := [Field([0xe000], Null), Field([0xd800, 0xdc00], Null)];
    v := Object(fields);
    assert Swapped(fields[0].key, fields[1].key);
    PrintersAgreeExactly(v, worker, ledger);
  }

  /** One number alone, written 1e+21 by the worker and 1e21 by the ledger: the texts differ. */
  lemma NumbersMayDisagree(worker: Spelling, ledger: Spelling)
    requires IsSpelling(worker) && IsSpelling(ledger)
    requires var t: Text := [0x31, 0x65, 0x32, 0x31];
      worker(t) == [0x31, 0x65, 0x2b, 0x32, 0x31] && ledger(t) == t
    ensures var v := Number([0x31, 0x65, 0x32, 0x31]);
      && OrdersAgree(v) && Canonical(TypeScript, Spelled(worker, v)) != Canonical(Rust, Spelled(ledger, v))
  {
    PrintersAgreeExactly(Number([0x31, 0x65, 0x32, 0x31]), worker, ledger);
  }
}
