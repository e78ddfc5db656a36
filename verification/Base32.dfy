/** The Base32 text of a TOTP secret: the two loops, with the 32-bit accumulator they shift without masking. */
module Base32 {
  import opened Domain

  type Byte = x: nat | x < 256

  const ALPHABET: string := "ABCDEFGHIJKLMNOPQRSTUVWXYZ234567"

  const WORD: int := 0x1_0000_0000

  /** The alphabet by position. */
  function Symbol(i: nat): (c: char)
    requires i < 32
    ensures InAlphabet(c) && IndexOf(c) == i
  {
    if i < 26 then 'A' + i as char else '2' + (i - 26) as char
  }

  predicate InAlphabet(c: char) {
    'A' <= c <= 'Z' || '2' <= c <= '7'
  }

  /** The position of a character in the alphabet, or 32. */
  function IndexOf(c: char): (i: nat)
    ensures i == 32 <==> !InAlphabet(c)
    ensures i <= 32
  {
    if 'A' <= c <= 'Z' then (c - 'A') as nat
    else if '2' <= c <= '7' then (c - '2') as nat + 26
    else 32
  }

  lemma AlphabetSpelled(i: nat)
    requires i < 32
    ensures |ALPHABET| == 32 && ALPHABET[i] == Symbol(i)
  {
  }

  // ---------------------------------------------------------------- meaning

  /** The number a sequence of digits spells in a base, most significant digit first. */
  function Number(base: nat, digits: seq<nat>): nat {
    if digits == [] then 0 else Number(base, digits[..|digits| - 1]) * base + digits[|digits| - 1]
  }

  function Digits(text: string): (digits: seq<nat>)
    ensures |digits| == |text|
  {
    seq(|text|, i requires 0 <= i < |text| => IndexOf(text[i]))
  }

  predicate Base32Text(text: string) {
    forall i | 0 <= i < |text| :: InAlphabet(text[i])
  }

  /** The bits of the bytes and then zeros up to a whole symbol, read in groups of five. */
  predicate Encodes(bytes: seq<Byte>, text: string) {
    && Base32Text(text)
    && |text| == (8 * |bytes| + 4) / 5
    && Number(32, Digits(text)) == Number(256, bytes) * Pow2(5 * |text| - 8 * |bytes|)
  }

  /** The bits of the symbols read in groups of eight; what is left over is dropped. */
  predicate Decodes(text: string, bytes: seq<Byte>) {
    && Base32Text(text)
    && |bytes| == 5 * |text| / 8
    && Number(256, bytes) == Number(32, Digits(text)) / Pow2(5 * |text| - 8 * |bytes|)
  }

  // ---------------------------------------------------------------- the loops

  lemma NumberAppend(base: nat, digits: seq<nat>, d: nat)
    ensures Number(base, digits + [d]) == Number(base, digits) * base + d
  {
    assert (digits + [d])[..|digits|] == digits;
  }

  lemma AtLeast(m: nat, e: nat)
    requires e > 0
    ensures m * e >= m
  {
    assert m * e == m * (e - 1) + m;
  }

  lemma Distribute(m: int, a: int, b: int)
    ensures m * (a - b) == m * a - m * b
  {
  }

  lemma Unique(m: nat, q: int, r: nat, q': int, r': nat)
    requires r < m && r' < m && m * q + r == m * q' + r'
    ensures q == q' && r == r'
  {
    Distribute(m, q, q');
    if q > q' { AtLeast(m, q - q'); }
    if q < q' { AtLeast(m, q' - q); Distribute(m, q', q); }
  }

  lemma DivMod(x: int, m: nat, q: int, r: nat)
    requires r < m && x == m * q + r
    ensures x / m == q && x % m == r
  {
    Unique(m, x / m, x % m, q, r);
  }

  lemma Below(r: nat, p: nat, w: nat, d: nat)
    requires r < p && d < w
    ensures r * w + d < p * w
  {
    assert (r + 1) * w <= p * w;
    assert (r + 1) * w == r * w + w;
  }

  lemma ModOfMod(x: nat, m: nat, k: nat)
    requires m > 0 && k > 0
    ensures m * k > 0 && x % (m * k) % m == x % m
  {
    AtLeast(m, k);
    var y, z := x % (m * k), x / (m * k);
    assert x == m * k * z + y;
    var u := y / m;
    assert y == m * u + y % m;
    assert x == m * (k * z + u) + y % m by {
      assert m * k * z == m * (k * z);
      assert m * (k * z + u) == m * (k * z) + m * u;
    }
    DivMod(x, m, k * z + u, y % m);
  }

  lemma ShiftIdentity(p: int, q: int, r: int, w: int, d: int)
    ensures (p * q + r) * w + d == (p * w) * q + (r * w + d)
  {
  }

  lemma SplitIdentity(p: int, w: int, u: int, v: int, r: int)
    ensures p * (w * u + v) + r == (p * w) * u + (v * p + r)
  {
  }

  lemma MoveIdentity(out: int, p: int, w: int, v: int, r: int)
    ensures out * (p * w) + (v * p + r) == (out * w + v) * p + r
  {
  }

  /** The shift may lose high bits, but never pending ones. */
  lemma ShiftIn(acc: nat, bits: nat, width: nat, digit: nat)
    requires bits + width <= 32 && digit < Pow2(width)
    ensures (acc * Pow2(width) + digit) % WORD % Pow2(bits + width) == (acc % Pow2(bits)) * Pow2(width) + digit
  {
    PowerSplits(bits, width);
    WordPower(bits + width);
    hide Pow2;
    ShiftMod(acc, Pow2(bits), Pow2(width), Pow2(bits + width), Pow2(32 - bits - width), WORD, digit);
  }

  lemma ShiftMod(acc: nat, p: nat, w: nat, pw: nat, k: nat, word: nat, digit: nat)
    requires p > 0 && digit < w && k > 0 && pw == p * w && word == pw * k
    ensures pw > 0 && word > 0 && (acc * w + digit) % word % pw == (acc % p) * w + digit
  {
    assert acc == p * (acc / p) + acc % p;
    ShiftParts(acc, p, w, k, acc / p, acc % p, digit);
  }

  lemma ShiftParts(acc: nat, p: nat, w: nat, k: nat, q: nat, r: nat, digit: nat)
    requires acc == p * q + r && r < p && digit < w && k > 0
    ensures p * w > 0 && p * w * k > 0 && (acc * w + digit) % (p * w * k) % (p * w) == r * w + digit
  {
    Below(r, p, w, digit);
    ShiftIdentity(p, q, r, w, digit);
    DivMod(acc * w + digit, p * w, q, r * w + digit);
    ModOfMod(acc * w + digit, p * w, k);
  }

  lemma Word32()
    ensures Pow2(32) == WORD
  {
    SmallPowers();
    PowerSplits(8, 8);
    PowerSplits(16, 16);
    hide Pow2;
    assert Pow2(16) == 65536;
  }

  lemma WordPower(n: nat)
    requires n <= 32
    ensures WORD == Pow2(n) * Pow2(32 - n)
  {
    PowerSplits(n, 32 - n);
    Word32();
  }

  /** Taking the top group off the pending bits leaves the others. */
  lemma TakeGroup(acc: nat, rest: nat, width: nat)
    ensures acc % Pow2(rest + width) == (acc / Pow2(rest) % Pow2(width)) * Pow2(rest) + acc % Pow2(rest)
  {
    PowerSplits(rest, width);
    hide Pow2;
    var p, w := Pow2(rest), Pow2(width);
    var q, r := acc / p, acc % p;
    assert acc == p * q + r;
    var u, v := q / w, q % w;
    assert q == w * u + v;
    Below(v, w, p, r);
    SplitIdentity(p, w, u, v, r);
    assert w * p == p * w;
    DivMod(acc, p * w, u, v * p + r);
  }

  lemma PowerSplits(a: nat, b: nat)
    ensures Pow2(a + b) == Pow2(a) * Pow2(b)
  {
    if a > 0 { PowerSplits(a - 1, b); }
  }

  /** Moving the top group of the pending bits from the remainder to the output keeps the number. */
  lemma Regroup(out: nat, acc: nat, rest: nat, width: nat)
    ensures var digit := acc / Pow2(rest) % Pow2(width);
            out * Pow2(rest + width) + acc % Pow2(rest + width) ==
                (out * Pow2(width) + digit) * Pow2(rest) + acc % Pow2(rest)
  {
    TakeGroup(acc, rest, width);
    PowerSplits(rest, width);
    hide Pow2;
    MoveIdentity(out, Pow2(rest), Pow2(width), acc / Pow2(rest) % Pow2(width), acc % Pow2(rest));
  }

  lemma SmallPowers()
    ensures Pow2(0) == 1 && Pow2(5) == 32 && Pow2(8) == 256
  {
    assert Pow2(3) == 8;
    PowerSplits(3, 5);
  }

  /** One more digit enters the pending bits. */
  lemma ShiftKeeps(input: nat, out: nat, acc: nat, bits: nat, width: nat, digit: nat)
    requires input == out * Pow2(bits) + acc % Pow2(bits) && bits + width <= 32 && digit < Pow2(width)
    ensures var next := (acc * Pow2(width) + digit) % WORD;
            input * Pow2(width) + digit == out * Pow2(bits + width) + next % Pow2(bits + width)
  {
    ShiftIn(acc, bits, width, digit);
    PowerSplits(bits, width);
    hide Pow2;
    MoveIdentity(out, Pow2(width), Pow2(bits), 0, 0);
    ShiftIdentity(Pow2(bits), out, acc % Pow2(bits), Pow2(width), digit);
  }

  lemma NoDigits()
    ensures Digits("") == [] && Number(32, []) == 0 == Number(256, [])
  {
  }

  method Encode(value: seq<Byte>) returns (encoded: string)
    ensures Encodes(value, encoded)
  {
    hide Pow2, Number, Digits;
    SmallPowers();
    NoDigits();
    var bits: nat, accumulator: nat := 0, 0;
    encoded := "";
    for i := 0 to |value|
      invariant bits < 5 && accumulator < WORD && Base32Text(encoded) && 8 * i == 5 * |encoded| + bits
      invariant Number(256, value[..i]) == Number(32, Digits(encoded)) * Pow2(bits) + accumulator % Pow2(bits)
    {
      assert value[..i + 1] == value[..i] + [value[i]];
      NumberAppend(256, value[..i], value[i]);
      ShiftKeeps(Number(256, value[..i]), Number(32, Digits(encoded)), accumulator, bits, 8, value[i]);
      accumulator := (accumulator * 256 + value[i]) % WORD;
      bits := bits + 8;
      while bits >= 5
        invariant bits <= 12 && accumulator < WORD && Base32Text(encoded) && 8 * (i + 1) == 5 * |encoded| + bits
        invariant Number(256, value[..i + 1]) == Number(32, Digits(encoded)) * Pow2(bits) + accumulator % Pow2(bits)
      {
        Regroup(Number(32, Digits(encoded)), accumulator, bits - 5, 5);
        bits := bits - 5;
        var symbol := accumulator / Pow2(bits) % 32;
        AppendSymbol(encoded, symbol);
        encoded := encoded + [Symbol(symbol)];
      }
    }
    assert value[..|value|] == value;
    if bits > 0 {
      var symbol := accumulator * Pow2(5 - bits) % WORD % 32;
      PadSymbol(Number(32, Digits(encoded)), accumulator, bits);
      AppendSymbol(encoded, symbol);
      encoded := encoded + [Symbol(symbol)];
    }
  }

  lemma AppendSymbol(text: string, symbol: nat)
    requires symbol < 32
    ensures Number(32, Digits(text + [Symbol(symbol)])) == Number(32, Digits(text)) * 32 + symbol
    ensures Base32Text(text) ==> Base32Text(text + [Symbol(symbol)])
  {
    assert IndexOf(Symbol(symbol)) == symbol;
    assert Digits(text + [Symbol(symbol)]) == Digits(text) + [symbol];
    NumberAppend(32, Digits(text), symbol);
  }

  /** The last symbol carries the pending bits and zeros. */
  lemma PadSymbol(out: nat, acc: nat, bits: nat)
    requires 0 < bits < 5 && acc < WORD
    ensures (out * Pow2(bits) + acc % Pow2(bits)) * Pow2(5 - bits) == out * 32 + acc * Pow2(5 - bits) % WORD % 32
  {
    SmallPowers();
    PowerSplits(bits, 5 - bits);
    WordPower(5);
    hide Pow2;
    var p, w := Pow2(bits), Pow2(5 - bits);
    var q, r := acc / p, acc % p;
    assert acc == p * q + r;
    Below(r, p, w, 0);
    ShiftIdentity(p, q, r, w, 0);
    ShiftIdentity(p, out, r, w, 0);
    assert out * p == p * out;
    var x := acc * w;
    assert x == 32 * q + r * w;
    DivMod(x, 32, q, r * w);
    ModOfMod(x, 32, Pow2(27));
  }

  /** The text without its trailing padding characters. */
  function Strip(text: string): (s: string)
    ensures s <= text && forall i | |s| <= i < |text| :: text[i] == '='
    ensures s == [] || s[|s| - 1] != '='
  {
    if text != [] && text[|text| - 1] == '=' then Strip(text[..|text| - 1]) else text
  }

  /** `upper` maps a text to upper case. */
  method Decode(value: string, upper: string -> string) returns (decoded: Option<seq<Byte>>)
    ensures decoded.None? <==> !Base32Text(Strip(upper(value)))
    ensures decoded.Some? ==> Decodes(Strip(upper(value)), decoded.value)
  {
    hide Pow2, Number, Digits;
    SmallPowers();
    NoDigits();
    var normalized := Strip(upper(value));
    var bits: nat, accumulator: nat := 0, 0;
    var bytes: seq<Byte> := [];
    for i := 0 to |normalized|
      invariant bits < 8 && accumulator < WORD && Base32Text(normalized[..i]) && 5 * i == 8 * |bytes| + bits
      invariant Number(32, Digits(normalized[..i])) == Number(256, bytes) * Pow2(bits) + accumulator % Pow2(bits)
    {
      var index := IndexOf(normalized[i]);
      if index == 32 { return None; }
      assert normalized[..i + 1] == normalized[..i] + [normalized[i]];
      assert Symbol(index) == normalized[i];
      AppendSymbol(normalized[..i], index);
      ShiftKeeps(Number(32, Digits(normalized[..i])), Number(256, bytes), accumulator, bits, 5, index);
      accumulator := (accumulator * 32 + index) % WORD;
      bits := bits + 5;
      if bits >= 8 {
        Regroup(Number(256, bytes), accumulator, bits - 8, 8);
        bits := bits - 8;
        var byte := accumulator / Pow2(bits) % 256;
        NumberAppend(256, bytes, byte);
        bytes := bytes + [byte];
      }
    }
    assert normalized[..|normalized|] == normalized;
    Leftover(normalized, bytes, bits, accumulator);
    return Some(bytes);
  }

  lemma Leftover(text: string, bytes: seq<Byte>, bits: nat, acc: nat)
    requires Base32Text(text) && bits < 8 && 5 * |text| == 8 * |bytes| + bits
    requires Number(32, Digits(text)) == Number(256, bytes) * Pow2(bits) + acc % Pow2(bits)
    ensures Decodes(text, bytes)
  {
    hide Pow2, Number, Digits;
    QuotientIs(Number(32, Digits(text)), Number(256, bytes), Pow2(bits), acc % Pow2(bits));
  }

  lemma QuotientIs(v: nat, q: nat, p: nat, r: nat)
    requires r < p && v == q * p + r
    ensures v / p == q
  {
    DivMod(v, p, q, r);
  }

  // ---------------------------------------------------------------- round trip

  /** Digits of one length are determined by their number. */
  lemma {:induction false} NumberInjective(base: nat, a: seq<nat>, b: seq<nat>)
    requires |a| == |b| && Number(base, a) == Number(base, b)
    requires forall i | 0 <= i < |a| :: a[i] < base && b[i] < base
    ensures a == b
  {
    if a != [] {
      var n := |a| - 1;
      Unique(base, Number(base, a[..n]), a[n], Number(base, b[..n]), b[n]);
      NumberInjective(base, a[..n], b[..n]);
      assert a == a[..n] + [a[n]] && b == b[..n] + [b[n]];
    }
  }

  lemma DigitsBelow(text: string)
    requires Base32Text(text)
    ensures forall i | 0 <= i < |text| :: Digits(text)[i] < 32
  {
  }

  lemma SameDigits(text: string, other: string)
    requires Base32Text(text) && Base32Text(other) && Digits(text) == Digits(other)
    ensures text == other
  {
    forall i | 0 <= i < |text| ensures text[i] == other[i] {
      assert Digits(text)[i] == Digits(other)[i];
    }
  }

  /** Bytes have one encoding. */
  lemma EncodingUnique(bytes: seq<Byte>, text: string, other: string)
    requires Encodes(bytes, text) && Encodes(bytes, other)
    ensures text == other
  {
    hide Pow2;
    DigitsBelow(text);
    DigitsBelow(other);
    NumberInjective(32, Digits(text), Digits(other));
    SameDigits(text, other);
  }

  /** What was encoded is what is decoded. */
  lemma RoundTrip(bytes: seq<Byte>, text: string, decoded: seq<Byte>)
    requires Encodes(bytes, text) && Decodes(text, decoded)
    ensures decoded == bytes
  {
    hide Pow2, Number;
    var p := Pow2(5 * |text| - 8 * |bytes|);
    assert p * Number(256, bytes) == Number(256, bytes) * p;
    DivMod(Number(32, Digits(text)), p, Number(256, bytes), 0);
    NumberInjective(256, bytes, decoded);
  }

  /**
   * Decoding and encoding again gives the text back exactly when its spare bits are fewer than a symbol and all
   * zero.
   */
  lemma ReencodeIff(text: string, bytes: seq<Byte>, again: string)
    requires Decodes(text, bytes) && Encodes(bytes, again)
    ensures var spare := 5 * |text| - 8 * |bytes|;
            again == text <==> spare < 5 && Number(32, Digits(text)) % Pow2(spare) == 0
  {
    hide Pow2, Number;
    var spare := 5 * |text| - 8 * |bytes|;
    var v, p := Number(32, Digits(text)), Pow2(spare);
    assert v == p * (v / p) + v % p;
    assert p * (v / p) == (v / p) * p;
    if spare < 5 {
      assert |again| == |text|;
      if v % p == 0 {
        DigitsBelow(text);
        DigitsBelow(again);
        NumberInjective(32, Digits(text), Digits(again));
        SameDigits(text, again);
      }
    }
  }

  /** The two functions of the source, one after the other, for bytes of any length. */
  method EncodeThenDecode(value: seq<Byte>, upper: string -> string) returns (decoded: Option<seq<Byte>>)
    requires forall text | Base32Text(text) :: upper(text) == text
    ensures decoded == Some(value)
  {
    hide Encodes, Decodes, Base32Text;
    var encoded := Encode(value);
    Plain(value, encoded);
    decoded := Decode(encoded, upper);
    RoundTrip(value, encoded, decoded.value);
  }

  lemma Plain(bytes: seq<Byte>, text: string)
    requires Encodes(bytes, text)
    ensures Base32Text(text) && Strip(text) == text
  {
  }
}
