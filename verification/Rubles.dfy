/** Amounts an operator types in roubles, and how they are shown again. */
module Rubles {
  import Domain
  import opened Text

  datatype Parsed = Amount(minor: nat) | Malformed | TooLarge

  predicate IsDigit(c: char) {
    '0' <= c <= '9'
  }

  function Digit(c: char): (d: nat)
    requires IsDigit(c)
    ensures d < 10 && (d == 0 <==> c == '0')
  {
    (c - '0') as nat
  }

  function DigitChar(d: nat): (c: char)
    requires d < 10
    ensures IsDigit(c) && Digit(c) == d
  {
    '0' + d as char
  }

  lemma SameDigit(c: char)
    requires IsDigit(c)
    ensures DigitChar(Digit(c)) == c
  {
  }

  predicate AllDigits(s: string) {
    forall i | 0 <= i < |s| :: IsDigit(s[i])
  }

  /** The number a run of decimal digits denotes. */
  function Value(s: string): nat
    requires AllDigits(s)
  {
    if s == [] then 0 else Value(s[..|s| - 1]) * 10 + Digit(s[|s| - 1])
  }

  /** A whole number without leading zeros. */
  function Decimal(n: nat): (s: string)
    ensures s != [] && AllDigits(s) && (s[0] == '0' ==> n == 0 && s == "0")
  {
    if n < 10 then [DigitChar(n)] else Decimal(n / 10) + [DigitChar(n % 10)]
  }

  /** The digits the text begins with. */
  function Leading(s: string): (d: string)
    ensures d <= s && AllDigits(d)
    ensures |d| < |s| ==> !IsDigit(s[|d|])
  {
    if s != [] && IsDigit(s[0]) then [s[0]] + Leading(s[1..]) else []
  }

  function PadEnd(fraction: string): string {
    if |fraction| == 0 then "00" else if |fraction| == 1 then fraction + "0" else fraction
  }

  /** `parseRublesToMinor`; the errors are the two it throws. */
  function Parse(text: string): Parsed {
    var t := Trim(text);
    var whole := Leading(t);
    var rest := t[|whole|..];
    if whole == [] then Malformed
    else if rest == [] then Checked(whole, "")
    else if (rest[0] == '.' || rest[0] == ',') && 2 <= |rest| <= 3 && AllDigits(rest[1..])
    then Checked(whole, rest[1..])
    else Malformed
  }

  function Checked(whole: string, fraction: string): Parsed
    requires AllDigits(whole) && AllDigits(fraction)
  {
    var minor := Value(whole) * 100 + Value(PadEnd(fraction));
    if minor > Domain.MAX_SAFE then TooLarge else Amount(minor)
  }

  /** `formatMinorRub` of a non-negative amount. */
  function Format(minor: nat): string {
    Decimal(minor / 100) + "," + Cents(minor % 100)
  }

  function Cents(n: nat): string {
    if n < 10 then "0" + Decimal(n) else Decimal(n)
  }

  // ---------------------------------------------------------------- numbers and digits

  lemma ValueAppend(s: string, c: char)
    requires AllDigits(s) && IsDigit(c)
    ensures Value(s + [c]) == Value(s) * 10 + Digit(c)
  {
    assert (s + [c])[..|s|] == s;
  }

  lemma OneDigit(c: char)
    requires IsDigit(c)
    ensures Value([c]) == Digit(c) && Decimal(Digit(c)) == [c]
  {
    ValueAppend([], c);
    SameDigit(c);
    assert [] + [c] == [c];
  }

  lemma {:induction false} ValueOfDecimal(n: nat)
    ensures Value(Decimal(n)) == n
  {
    if n >= 10 {
      ValueOfDecimal(n / 10);
      ValueAppend(Decimal(n / 10), DigitChar(n % 10));
    } else {
      OneDigit(DigitChar(n));
    }
  }

  /** Digits without a leading zero are the decimal of their value. */
  lemma {:induction false} DecimalOfValue(s: string)
    requires s != [] && AllDigits(s) && (s[0] == '0' ==> s == "0")
    ensures Decimal(Value(s)) == s
    ensures s[0] != '0' ==> Value(s) > 0
  {
    hide Digit, DigitChar, IsDigit;
    var last := |s| - 1;
    OneDigit(s[last]);
    if last == 0 {
      assert s == [s[0]];
    } else {
      var front := s[..last];
      assert s == front + [s[last]];
      assert front[0] == s[0];
      DecimalOfValue(front);
      ValueAppend(front, s[last]);
      SameDigit(s[last]);
      TenTimes(Value(front), Digit(s[last]));
    }
  }

  lemma TenTimes(q: nat, r: nat)
    requires r < 10
    ensures (q * 10 + r) / 10 == q && (q * 10 + r) % 10 == r
  {
  }

  lemma TwoDigits(a: char, b: char)
    requires IsDigit(a) && IsDigit(b)
    ensures Value([a, b]) == Digit(a) * 10 + Digit(b) < 100
    ensures Cents(Value([a, b])) == [a, b]
  {
    OneDigit(a);
    OneDigit(b);
    assert [a, b] == [a] + [b];
    ValueAppend([a], b);
    hide Digit, DigitChar;
    TenTimes(Digit(a), Digit(b));
    SameDigit(b);
    assert "0" + [b] == ['0', b];
  }

  lemma CentsValue(n: nat)
    requires n < 100
    ensures |Cents(n)| == 2 && AllDigits(Cents(n)) && Value(Cents(n)) == n
  {
    var a, b := DigitChar(n / 10), DigitChar(n % 10);
    TwoDigits(a, b);
  }

  // ---------------------------------------------------------------- what is accepted

  /** The shape of an amount: digits, then at most a point or comma with one or two more. */
  predicate Shape(t: string, whole: string, fraction: string) {
    whole != [] && AllDigits(whole) && AllDigits(fraction) && |fraction| <= 2 &&
    if fraction == [] then t == whole else t == whole + "." + fraction || t == whole + "," + fraction
  }

  lemma {:induction false} LeadingOf(whole: string, rest: string)
    requires AllDigits(whole) && (rest == [] || !IsDigit(rest[0]))
    ensures Leading(whole + rest) == whole
  {
    if whole == [] { assert whole + rest == rest; }
    else {
      assert (whole + rest)[1..] == whole[1..] + rest;
      LeadingOf(whole[1..], rest);
    }
  }

  /** The meaning of a well-formed text. */
  lemma ShapeParses(text: string, whole: string, fraction: string)
    requires Shape(Trim(text), whole, fraction)
    ensures Parse(text) == Checked(whole, fraction) != Malformed
  {
    var t := Trim(text);
    var rest := t[|whole|..];
    assert t == whole + rest;
    LeadingOf(whole, rest);
    if fraction != [] { assert rest[1..] == fraction; }
  }

  /** A text is malformed exactly when it has no such shape. */
  lemma MalformedIff(text: string)
    ensures Parse(text) == Malformed <==> forall whole, fraction :: !Shape(Trim(text), whole, fraction)
  {
    hide Trim, Parse;
    forall whole, fraction | Shape(Trim(text), whole, fraction) ensures Parse(text) != Malformed {
      ShapeParses(text, whole, fraction);
    }
    if Parse(text) != Malformed {
      var whole, fraction := ShapeOf(text);
    }
  }

  lemma ShapeOf(text: string) returns (whole: string, fraction: string)
    requires Parse(text) != Malformed
    ensures Shape(Trim(text), whole, fraction)
  {
    var t := Trim(text);
    hide Trim, Leading, Checked, Digit, Value, IsDigit, Shape;
    whole := Leading(t);
    var rest := t[|whole|..];
    fraction := if rest == [] then "" else rest[1..];
    Reassembled(t, whole, fraction);
  }

  lemma Reassembled(t: string, whole: string, fraction: string)
    requires whole != [] && whole <= t && AllDigits(whole) && AllDigits(fraction) && |fraction| <= 2
    requires if whole == t then fraction == []
             else (t[|whole|] == '.' || t[|whole|] == ',') && fraction == t[|whole| + 1..] != []
    ensures Shape(t, whole, fraction)
  {
    hide IsDigit;
    if whole != t { assert t == whole + [t[|whole|]] + fraction; }
  }

  // ---------------------------------------------------------------- round trip

  /** Every amount JavaScript can hold exactly is read back from what is shown for it. */
  lemma RoundTrip(n: nat)
    requires n <= Domain.MAX_SAFE
    ensures Parse(Format(n)) == Amount(n)
  {
    var whole, cents := Decimal(n / 100), Cents(n % 100);
    CentsValue(n % 100);
    ValueOfDecimal(n / 100);
    Untrimmed(Format(n));
    ShapeParses(Format(n), whole, cents);
  }

  /** The form in which amounts are shown. */
  predicate Canonical(t: string) {
    |t| >= 4 && t[|t| - 3] == ',' && AllDigits(t[..|t| - 3]) && AllDigits(t[|t| - 2..]) && (t[0] == '0' ==> |t| == 4)
  }

  lemma Untrimmed(t: string)
    requires t != [] && !IsSpace(t[0]) && !IsSpace(t[|t| - 1])
    ensures Trim(t) == t
  {
  }

  /** A canonical text is shown as itself, and what is shown is canonical. */
  lemma CanonicalIff(t: string, n: nat)
    requires Parse(t) == Amount(n)
    ensures Canonical(Format(n)) && Parse(Format(n)) == Amount(n)
    ensures Canonical(t) <==> t == Format(n)
  {
    hide Canonical, Format, Trim, Value;
    assert n <= Domain.MAX_SAFE;
    hide Parse;
    FormatCanonical(n);
    RoundTrip(n);
    if Canonical(t) { CanonicalShown(t, n); }
  }

  lemma FormatCanonical(n: nat)
    ensures Canonical(Format(n))
  {
    CentsValue(n % 100);
    ValueOfDecimal(n / 100);
    hide Value, Cents, Decimal, IsDigit;
    var whole, shown := Decimal(n / 100), Format(n);
    assert shown[..|shown| - 3] == whole && shown[|shown| - 2..] == Cents(n % 100) && shown[0] == whole[0];
  }

  lemma CanonicalShown(t: string, n: nat)
    requires Parse(t) == Amount(n) && Canonical(t)
    ensures t == Format(n)
  {
    hide Parse, Trim, Shape, Value, Decimal, Cents, Digit;
    var whole, cents := t[..|t| - 3], t[|t| - 2..];
    assert t == whole + "," + cents && cents == [cents[0], cents[1]];
    CanonicalShape(t, whole, cents);
    ShapeParses(t, whole, cents);
    TwoDigits(cents[0], cents[1]);
    DecimalOfValue(whole);
    Hundred(Value(whole), Value(cents));
  }

  lemma CanonicalShape(t: string, whole: string, cents: string)
    requires Canonical(t) && t == whole + "," + cents && |cents| == 2
    ensures Shape(Trim(t), whole, cents) && (whole[0] == '0' ==> whole == "0")
  {
    assert whole == t[..|t| - 3] && cents == t[|t| - 2..] && whole[0] == t[0];
    Untrimmed(t);
    hide Trim;
  }

  lemma Hundred(q: nat, r: nat)
    requires r < 100
    ensures (q * 100 + r) / 100 == q && (q * 100 + r) % 100 == r
  {
  }
}
