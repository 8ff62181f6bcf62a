/** Scalars as JSON values and map keys as JSON member names (format.go:352-418): different values stay different,
    so a map comes out with as many members as it has entries, each holding its own entry's element. */
module Scalars {
  import opened Wrappers
  import opened Protobuf
  import opened Response
  import opened Format
  import opened Meaning
  import opened Conformance

  /** Reads a number back from decimal digits. */
  function ParseDigits(s: string): int {
    if s == "" then 0 else ParseDigits(s[..|s| - 1]) * 10 + (s[|s| - 1] as int - '0' as int)
  }

  function ParseDecimal(s: string): int {
    if s != "" && s[0] == '-' then -ParseDigits(s[1..]) else ParseDigits(s)
  }

  lemma {:induction false} DigitsRoundTrip(n: nat)
    ensures ParseDigits(Digits(n)) == n
    ensures Digits(n) != "" && Digits(n)[0] != '-'
  {
    var last := ('0' as int + n % 10) as char;
    if n < 10 {
      assert Digits(n) == [last] && [last][..0] == "";
    } else {
      DigitsRoundTrip(n / 10);
      assert Digits(n) == Digits(n / 10) + [last];
      assert (Digits(n / 10) + [last])[..|Digits(n / 10)|] == Digits(n / 10);
    }
  }

  lemma DecimalRoundTrip(i: int)
    ensures ParseDecimal(Decimal(i)) == i
  {
    hide Digits, ParseDigits;
    if i < 0 {
      DigitsRoundTrip(-i);
      assert Decimal(i)[1..] == Digits(-i);
    } else {
      DigitsRoundTrip(i);
    }
  }

  predicate IsDigits(s: string) { s != "" && forall i :: 0 <= i < |s| ==> '0' <= s[i] <= '9' }

  /** Decimal digits without a leading zero, except for zero itself. */
  predicate CanonicalDigits(s: string) { IsDigits(s) && (s[0] == '0' ==> s == "0") }

  /** Canonical digits, after a minus sign if negative. */
  predicate CanonicalDecimal(s: string) {
    if s != "" && s[0] == '-' then CanonicalDigits(s[1..]) && s != "-0" else CanonicalDigits(s)
  }

  lemma {:induction false} DigitsCanonical(n: nat)
    ensures CanonicalDigits(Digits(n)) && (n > 0 ==> Digits(n)[0] != '0')
  {
    if n >= 10 {
      DigitsCanonical(n / 10);
    }
  }

  lemma OneDigit(c: char)
    requires '0' <= c <= '9'
    ensures ParseDigits([c]) == c as int - '0' as int && Digits(c as int - '0' as int) == [c]
  {
    assert [c][..0] == "";
  }

  lemma {:induction false} ParsedDigits(s: string)
    requires CanonicalDigits(s)
    ensures ParseDigits(s) >= 0 && (s[0] != '0' ==> ParseDigits(s) > 0) && Digits(ParseDigits(s)) == s
  {
    var init, last := s[..|s| - 1], s[|s| - 1];
    assert s == init + [last] && '0' <= last <= '9';
    var d := last as int - '0' as int;
    if init == "" {
      OneDigit(last);
    } else {
      assert init[0] == s[0] && forall i :: 0 <= i < |init| ==> init[i] == s[i];
      ParsedDigits(init);
      var n := ParseDigits(init);
      assert ParseDigits(s) == n * 10 + d;
      LastDigit(n, d);
    }
  }

  lemma LastDigit(n: nat, d: nat)
    requires d < 10
    ensures (n * 10 + d) / 10 == n && (n * 10 + d) % 10 == d
  {
  }

  /** The decimal text of an integer is canonical, and every canonical text is that of the integer it reads as. */
  lemma DecimalCanonical(i: int, s: string)
    ensures CanonicalDecimal(Decimal(i))
    ensures CanonicalDecimal(s) ==> Decimal(ParseDecimal(s)) == s
  {
    hide Digits, ParseDigits, IsDigits;
    DigitsCanonical(if i < 0 then -i else i);
    DigitsRoundTrip(if i < 0 then -i else i);
    if i < 0 {
      assert Decimal(i)[1..] == Digits(-i);
    }
    if CanonicalDecimal(s) {
      if s != "" && s[0] == '-' {
        ParsedDigits(s[1..]);
        assert s == ['-'] + s[1..];
        NonZeroDigits(s[1..]);
      } else {
        ParsedDigits(s);
      }
    }
  }

  lemma NonZeroDigits(s: string)
    requires CanonicalDigits(s) && s != "0"
    ensures s[0] != '0'
  {
  }

  /** The key a text stands for, given the kind of the map's keys; None for a text no key has. */
  function ReadKey(kind: Kind, text: string): Option<Scalar> {
    match kind
    case BoolKind => if text in {"true", "false"} then Some(BoolVal(text == "true")) else None
    case StringKind => Some(StringVal(text))
    case Uint32Kind | Fixed32Kind | Uint64Kind | Fixed64Kind =>
      if CanonicalDecimal(text) && ParseDecimal(text) >= 0 then Some(UintVal(ParseDecimal(text))) else None
    case Int32Kind | Sint32Kind | Sfixed32Kind | Int64Kind | Sint64Kind | Sfixed64Kind =>
      if CanonicalDecimal(text) then Some(IntVal(ParseDecimal(text))) else None
    case _ => None
  }

  /** Reading a key's text back gives the key. */
  lemma KeyTextRoundTrip(kind: Kind, key: Scalar)
    requires IsKeyKind(kind) && ScalarFits(kind, key)
    ensures ReadKey(kind, KeyText(key)) == Some(key)
  {
    hide Decimal, ParseDecimal, CanonicalDecimal;
    if key.IntVal? || key.UintVal? {
      var i := if key.IntVal? then key.i else key.n;
      DecimalRoundTrip(i);
      DecimalCanonical(i, "");
    }
  }

  ghost predicate KeyReadsBack(kind: Kind, key: Scalar, text: string) {
    ScalarFits(kind, key) ==> ReadKey(kind, text) == Some(key)
  }

  lemma FormattedKeyReadsBack(kind: Kind, key: Scalar)
    requires IsKeyKind(kind)
    ensures KeyReadsBack(kind, key, KeyText(key))
  {
    hide KeyText, ReadKey;
    if ScalarFits(kind, key) {
      KeyTextRoundTrip(kind, key);
    }
  }

  /** So different keys of one kind have different texts. */
  lemma KeyTextInjective(kind: Kind, a: Scalar, b: Scalar)
    requires IsKeyKind(kind) && ScalarFits(kind, a) && ScalarFits(kind, b) && KeyText(a) == KeyText(b)
    ensures a == b
  {
    hide KeyText, ReadKey;
    KeyTextRoundTrip(kind, a);
    KeyTextRoundTrip(kind, b);
  }

  predicate DistinctlyNamed(enum: Enum) {
    forall i, j :: i in enum.names && j in enum.names && enum.names[i] == enum.names[j] ==> i == j
  }

  /** The number of an enum that a name stands for. */
  ghost function NumberNamed(enum: Enum, name: string): Option<int> {
    if exists n :: n in enum.names && enum.names[n] == name then
      var n :| n in enum.names && enum.names[n] == name;
      Some(n)
    else None
  }

  /** The scalar a JSON value stands for in a field, following the JSON mapping of proto3: 32-bit integers are numbers,
      64-bit ones canonical decimal text, enum values their names or, if unknown, their numbers; null stands for any
      value of google.protobuf.NullValue, and for no other scalar. */
  ghost function ReadScalar(f: Field, leaf: Leaf): Option<Scalar> {
    match f.kind
    case BoolKind => if leaf.Bool? then Some(BoolVal(leaf.b)) else None
    case StringKind => if leaf.Text? then Some(StringVal(leaf.text)) else None
    case BytesKind => if leaf.Base64? then Some(BytesVal(leaf.bytes)) else None
    case Int32Kind | Sint32Kind | Sfixed32Kind =>
      if leaf.Number? && IsInteger(leaf.value) then Some(IntVal(leaf.value.Floor)) else None
    case Uint32Kind | Fixed32Kind =>
      if leaf.Number? && IsInteger(leaf.value) && leaf.value >= 0.0 then Some(UintVal(leaf.value.Floor)) else None
    case Int64Kind | Sint64Kind | Sfixed64Kind =>
      if leaf.Text? && CanonicalDecimal(leaf.text) then Some(IntVal(ParseDecimal(leaf.text))) else None
    case Uint64Kind | Fixed64Kind =>
      if leaf.Text? && CanonicalDecimal(leaf.text) && ParseDecimal(leaf.text) >= 0
      then Some(UintVal(ParseDecimal(leaf.text))) else None
    case FloatKind | DoubleKind =>
      if leaf.Number? then Some(FloatVal(Finite(leaf.value)))
      else if leaf == Text("NaN") then Some(FloatVal(NaN))
      else if leaf == Text("Infinity") then Some(FloatVal(PosInf))
      else if leaf == Text("-Infinity") then Some(FloatVal(NegInf))
      else None
    case EnumKind =>
      if leaf.Text? then
        var number := NumberNamed(f.enum, leaf.text);
        if number.Some? then Some(EnumVal(number.value)) else None
      else if leaf.Number? && IsInteger(leaf.value) && leaf.value.Floor !in f.enum.names then
        Some(EnumVal(leaf.value.Floor))
      else None
    case _ => None
  }

  predicate IsInteger(x: real) { x.Floor as real == x }

  /** A scalar of the field's kind reads back from this JSON value; google.protobuf.NullValue is null. */
  ghost predicate ReadsBack(f: Field, s: Scalar, leaf: Leaf) {
    ScalarFits(f.kind, s) && (f.kind.EnumKind? ==> DistinctlyNamed(f.enum)) ==>
      if f.kind.EnumKind? && f.enum.isNullValue then leaf == Null else ReadScalar(f, leaf) == Some(s)
  }

  /** Reading a formatted scalar back gives the scalar; only google.protobuf.NullValue is formatted as null. */
  lemma ScalarRoundTrip(f: Field, s: Scalar)
    requires ScalarFits(f.kind, s) && (f.kind.EnumKind? ==> DistinctlyNamed(f.enum))
    ensures ScalarLeaf(f, s).Null? <==> f.kind.EnumKind? && f.enum.isNullValue
    ensures !ScalarLeaf(f, s).Null? ==> ReadScalar(f, ScalarLeaf(f, s)) == Some(s)
  {
    hide Decimal, ParseDecimal, CanonicalDecimal;
    match f.kind
    case Int64Kind | Sint64Kind | Sfixed64Kind =>
      DecimalRoundTrip(s.i);
      DecimalCanonical(s.i, "");
    case Uint64Kind | Fixed64Kind =>
      DecimalRoundTrip(s.n);
      DecimalCanonical(s.n, "");
    case Int32Kind | Sint32Kind | Sfixed32Kind => assert (s.i as real).Floor == s.i;
    case Uint32Kind | Fixed32Kind => assert (s.n as real).Floor == s.n;
    case EnumKind =>
      assert (s.number as real).Floor == s.number;
      if s.number in f.enum.names {
        assert NumberNamed(f.enum, f.enum.names[s.number]) == Some(s.number);
      }
    case _ =>
  }

  lemma FormattedReadsBack(f: Field, s: Scalar)
    ensures ReadsBack(f, s, ScalarLeaf(f, s))
  {
    hide ScalarLeaf, ReadScalar;
    if ScalarFits(f.kind, s) && (f.kind.EnumKind? ==> DistinctlyNamed(f.enum)) {
      ScalarRoundTrip(f, s);
    }
  }

  /** So different scalars of a field have different JSON values. */
  lemma ScalarLeafInjective(f: Field, a: Scalar, b: Scalar)
    requires ScalarFits(f.kind, a) && ScalarFits(f.kind, b) && ScalarLeaf(f, a) == ScalarLeaf(f, b)
    requires f.kind.EnumKind? ==> DistinctlyNamed(f.enum) && !f.enum.isNullValue
    ensures a == b
  {
    hide ScalarLeaf, ReadScalar, DistinctlyNamed;
    ScalarRoundTrip(f, a);
    ScalarRoundTrip(f, b);
  }

  lemma {:induction false} ZipSize<T>(keys: seq<string>, items: seq<T>)
    requires |keys| == |items| && forall i, j :: 0 <= i < j < |keys| ==> keys[i] != keys[j]
    ensures |Zip(keys, items)| == |keys| && forall k :: k in Zip(keys, items) <==> k in keys
  {
    if keys != [] {
      var n := |keys| - 1;
      ZipSize(keys[..n], items[..n]);
      assert keys == keys[..n] + [keys[n]];
      assert keys[n] !in keys[..n];
      var m := Zip(keys[..n], items[..n]);
      assert m[keys[n] := items[n]] - {keys[n]} == m;
    }
  }

  /** A map field shows one member for each entry, under the text of its key. */
  lemma MapEntriesKept(w: World, fails: Failures, f: Field, v: Val, mask: seq<Mask>, meta: Meta)
    requires v.Entries? && ValConforms(w.types, f, v) && IsKeyKind(f.shape.key)
    ensures var members := TreeValue(w, fails, f, v, mask, meta).members;
            && |members| == |v.entries|
            && forall i :: 0 <= i < |v.entries| ==>
                 && KeyText(v.entries[i].0) in members
                 && members[KeyText(v.entries[i].0)] == TreeElement(w, fails, f, v.entries[i].1, mask, meta)
  {
    hide TreeElement, KeyText, ElementConforms;
    var keys, xs := KeyTexts(v), TreeElements(w, fails, f, Elements(v), mask, meta);
    forall i, j | 0 <= i < j < |keys| ensures keys[i] != keys[j] {
      assert v.entries[i] in v.entries && v.entries[j] in v.entries;
      if keys[i] == keys[j] {
        KeyTextInjective(f.shape.key, v.entries[i].0, v.entries[j].0);
      }
    }
    ZipSize(keys, xs);
    forall i | 0 <= i < |v.entries|
      ensures KeyText(v.entries[i].0) in Zip(keys, xs)
              && Zip(keys, xs)[KeyText(v.entries[i].0)] == TreeElement(w, fails, f, v.entries[i].1, mask, meta)
    {
      ZipLookup(keys, xs, i);
    }
  }
}
