/**
 Register numbers: integer literals encode digit by digit and read back as the same number, cut
 to 13 significant digits; register lines and their hexadecimal text lose nothing.
 */
module Bcd {
  import opened Words
  import opened TextUtil

  type Nibbles16 = s: seq<Nibble> | |s| == 16 witness seq(16, _ => 0)
  type Line = s: seq<Byte> | |s| == 8 witness seq(8, _ => 0)

  // ---------------------------------------------------------------- register lines

  function Pair(hi: Nibble, lo: Nibble): (b: Byte)
    ensures b / 16 == hi && b % 16 == lo
  {
    var h: int := hi;
    h * 16 + lo
  }

  /** Nibble pairs swapped, bytes reversed. */
  function EncodeRegisterLine(n: Nibbles16): Line {
    seq(8, k requires 0 <= k < 8 => Pair(n[14 - 2 * k], n[15 - 2 * k]))
  }

  function DecodeRegisterLine(b: Line): Nibbles16 {
    seq(16, i requires 0 <= i < 16 => if i % 2 == 0 then b[7 - i / 2] / 16 else b[7 - i / 2] % 16)
  }

  method EncodeLine(n: Nibbles16) returns (bytes: array<Byte>)
    ensures bytes[..] == EncodeRegisterLine(n)
  {
    bytes := new Byte[8];
    var k := 0;
    while k < 8
      invariant k <= 8 && forall j :: 0 <= j < k ==> bytes[j] == Pair(n[14 - 2 * j], n[15 - 2 * j])
    {
      var i := 14 - 2 * k;
      bytes[k] := Pair(n[i], n[i + 1]);
      k := k + 1;
    }
  }

  method DecodeLine(b: Line) returns (nibbles: array<Nibble>)
    ensures nibbles[..] == DecodeRegisterLine(b)
  {
    nibbles := new Nibble[16];
    var i := 0;
    while i < 8
      invariant i <= 8
      invariant forall j :: 0 <= j < i ==> nibbles[14 - 2 * j] == b[j] / 16 && nibbles[15 - 2 * j] == b[j] % 16
    {
      nibbles[14 - 2 * i] := b[i] / 16;
      nibbles[15 - 2 * i] := b[i] % 16;
      i := i + 1;
    }
    forall k | 0 <= k < 16 ensures nibbles[k] == DecodeRegisterLine(b)[k] {
      var j := 7 - k / 2;
      assert nibbles[14 - 2 * j] == b[j] / 16 && nibbles[15 - 2 * j] == b[j] % 16;
    }
  }

  lemma LinesInvert(n: Nibbles16, b: Line)
    ensures DecodeRegisterLine(EncodeRegisterLine(n)) == n
    ensures EncodeRegisterLine(DecodeRegisterLine(b)) == b
  {
    forall i | 0 <= i < 16 ensures DecodeRegisterLine(EncodeRegisterLine(n))[i] == n[i] {
      var k := 7 - i / 2;
      assert EncodeRegisterLine(n)[k] == Pair(n[14 - 2 * k], n[15 - 2 * k]);
    }
    forall k | 0 <= k < 8 ensures EncodeRegisterLine(DecodeRegisterLine(b))[k] == b[k] {
      assert DecodeRegisterLine(b)[14 - 2 * k] == b[k] / 16;
      assert DecodeRegisterLine(b)[15 - 2 * k] == b[k] % 16;
    }
  }

  /** Bytes as hexadecimal words. */
  function HexWords(bytes: seq<Byte>): (words: seq<string>)
    ensures |words| == |bytes| && forall i :: 0 <= i < |bytes| ==> words[i] == Hex2(bytes[i])
  {
    seq(|bytes|, i requires 0 <= i < |bytes| => Hex2(bytes[i]))
  }

  function RegisterLineHex(n: Nibbles16): string {
    Join(HexWords(EncodeRegisterLine(n)), ' ')
  }

  predicate IsByteWord(word: string) {
    ParseHex(word).Some? && ParseHex(word).value <= 0xFF
  }

  function ByteOf(word: string): Byte {
    if IsByteWord(word) then ParseHex(word).value else 0
  }

  /** Exactly eight words, each a byte. */
  function ParseRegisterLineHex(s: string): Option<Line> {
    var words := SplitWords(s);
    if |words| != 8 || exists i :: 0 <= i < 8 && !IsByteWord(words[i]) then None
    else Some(BytesOf(words))
  }

  function BytesOf(words: seq<string>): (bytes: seq<Byte>)
    ensures |bytes| == |words| && forall i :: 0 <= i < |words| ==> bytes[i] == ByteOf(words[i])
  {
    seq(|words|, i requires 0 <= i < |words| => ByteOf(words[i]))
  }

  method ParseLine(s: string) returns (line: Option<Line>)
    ensures line == ParseRegisterLineHex(s)
  {
    var words := SplitIntoWords(s);
    if |words| != 8 {
      return None;
    }
    var bytes: seq<Byte> := [];
    var i := 0;
    while i < 8
      invariant i <= 8 && |bytes| == i
      invariant forall j :: 0 <= j < i ==> IsByteWord(words[j]) && bytes[j] == ByteOf(words[j])
    {
      var v := ParseHexText(words[i]);
      if v.None? || v.value > 0xFF {
        assert !IsByteWord(words[i]);
        return None;
      }
      bytes := bytes + [v.value];
      i := i + 1;
    }
    assert bytes == BytesOf(words);
    line := Some(bytes);
  }

  lemma HexWordIsFree(v: Byte)
    ensures Hex2(v) != "" && Free(Hex2(v), {' '}) && Ascii(Hex2(v))
  {
    HexCharIs(v / 16);
    HexCharIs(v % 16);
  }

  /** Eight hexadecimal words parse to their bytes. */
  lemma HexLineParses(bytes: Line)
    ensures ParseRegisterLineHex(Join(HexWords(bytes), ' ')) == Some(bytes)
  {
    var words := HexWords(bytes);
    forall i | 0 <= i < 8 ensures words[i] != "" && Free(words[i], {' '}) && IsByteWord(words[i]) && ByteOf(words[i]) == bytes[i] {
      HexWordIsFree(bytes[i]);
      Hex2Parses(bytes[i]);
    }
    SplitJoin(words, ' ', {' '});
    AllKept(words);
    assert BytesOf(words) == bytes;
  }

  /** A register's text gives the register back. */
  lemma RegisterTextInverts(n: Nibbles16)
    ensures var line := ParseRegisterLineHex(RegisterLineHex(n));
            line.Some? && DecodeRegisterLine(line.value) == n
  {
    HexLineParses(EncodeRegisterLine(n));
    LinesInvert(n, EncodeRegisterLine(n));
  }

  // ---------------------------------------------------------------- integer literals

  predicate AllDigits(s: string) {
    forall i :: 0 <= i < |s| ==> '0' <= s[i] <= '9'
  }

  /** An optional minus sign and at least one digit, nothing else. */
  predicate IsPureInteger(s: string) {
    var t := if s != "" && s[0] == '-' then s[1..] else s;
    t != "" && AllDigits(t)
  }

  function Unsigned(s: string): string {
    if s != "" && s[0] == '-' then s[1..] else s
  }

  /** Leading zeros off, one digit always left. */
  function Significant(t: string): string
    decreases |t|
  {
    if |t| > 1 && t[0] == '0' then Significant(t[1..]) else t
  }

  function DigitAt(t: string, k: nat): Byte
    requires k < |t| && AllDigits(t)
  {
    t[k] as int - '0' as int
  }

  /** Sign, two exponent digits, and the first thirteen significant digits from nibble 15 down. */
  function EncodeDigits(negative: bool, t: string): Digits
    requires t != "" && AllDigits(t)
  {
    var exp := |t| - 1;
    seq(16, i requires 0 <= i < 16 =>
      if i == 0 then (if negative then 2 else 0)
      else if i == 1 then exp % 10
      else if i == 2 then exp / 10 % 256
      else if 15 - i < |t| then DigitAt(t, 15 - i) else 0)
  }

  lemma {:induction false} SignificantIsDigits(t: string)
    requires t != "" && AllDigits(t)
    ensures var u := Significant(t);
            u != "" && AllDigits(u) && (u[0] == '0' ==> u == "0") && |u| <= |t|
    decreases |t|
  {
    if |t| > 1 && t[0] == '0' {
      SignificantIsDigits(t[1..]);
    } else if t[0] == '0' {
      assert t == "0";
    }
  }

  /** A literal's register: integers digit by digit, anything else by way of a double. */
  function EncodeBcd(text: string, viaDouble: string -> Digits): Digits {
    var t := Trim(text);
    if !IsPureInteger(t) then viaDouble(t)
    else
      SignificantIsDigits(Unsigned(t));
      var u := Significant(Unsigned(t));
      if u == "0" then ZERO_DIGITS else EncodeDigits(t[0] == '-', u)
  }

  method EncodeLiteral(text: string, viaDouble: string -> Digits) returns (n: Digits)
    ensures n == EncodeBcd(text, viaDouble)
  {
    var t := TrimText(text);
    if !IsPureInteger(t) {
      return viaDouble(t);
    }
    var negative := t[0] == '-';
    if negative {
      t := t[1..];
    }
    SignificantIsDigits(t);
    while |t| > 1 && t[0] == '0'
      invariant t != "" && Significant(t) == Significant(Unsigned(Trim(text))) && AllDigits(t)
      decreases |t|
    {
      t := t[1..];
    }
    if t == "0" {
      return ZERO_DIGITS;
    }
    n := FillDigits(negative, t);
  }

  method FillDigits(negative: bool, t: string) returns (n: Digits)
    requires t != "" && AllDigits(t)
    ensures n == EncodeDigits(negative, t)
  {
    n := ZERO_DIGITS;
    var exp := |t| - 1;
    n := n[0 := if negative then 2 else 0][1 := exp % 10][2 := exp / 10 % 256];
    var offset := 0;
    while offset < 13 && offset < |t|
      invariant offset <= 13 && offset <= |t|
      invariant n[0] == (if negative then 2 else 0) && n[1] == exp % 10 && n[2] == exp / 10 % 256
      invariant forall k :: 0 <= k < offset ==> n[15 - k] == DigitAt(t, k)
      invariant forall i :: 3 <= i < 16 - offset ==> n[i] == 0
    {
      n := n[15 - offset := DigitAt(t, offset)];
      offset := offset + 1;
    }
    forall i | 0 <= i < 16 ensures n[i] == EncodeDigits(negative, t)[i] {
      if i >= 3 && 15 - i < |t| {
        assert n[15 - (15 - i)] == DigitAt(t, 15 - i);
      }
    }
  }

  // ---------------------------------------------------------------- reading a register

  function Pow10(k: nat): (p: int)
    ensures p > 0
  {
    if k == 0 then 1 else Pow10(k - 1) * 10
  }

  /** The digits n[15] down to n[15 - k + 1] as a number. */
  function Mantissa(n: Digits, k: nat): nat
    requires k <= 13
  {
    if k == 0 then 0 else Mantissa(n, k - 1) * 10 + n[16 - k] % 16
  }

  function Exponent(n: Digits): nat {
    var tens: int := n[2];
    tens * 10 + n[1]
  }

  predicate Bit(b: Byte, weight: nat)
    requires weight > 0
  {
    b / weight % 2 == 1
  }

  /** A register's number: the mantissa d.dddddddddddd times a power of ten. */
  function DecodeBcd(n: Digits): real {
    if n == ZERO_DIGITS then 0.0
    else
      var value := Scale(Mantissa(n, 13), Exponent(n), Bit(n[0], 4));
      if Bit(n[0], 2) then -value else value
  }

  /** Thirteen digits with the point after the first, times ten to the exponent. */
  function Scale(mantissa: nat, exp: nat, negative: bool): real {
    var m := mantissa as real / Pow10(12) as real;
    if negative then m / Pow10(exp) as real else m * Pow10(exp) as real
  }

  /** The number a string of digits writes. */
  function Number(t: string): nat
    requires AllDigits(t)
  {
    if t == "" then 0 else Number(t[..|t| - 1]) * 10 + DigitAt(t, |t| - 1)
  }

  /** The integer a literal writes. */
  function IntegerOf(s: string): int
    requires IsPureInteger(s)
  {
    Signed(s[0] == '-', Number(Unsigned(s)))
  }

  lemma {:induction false} PowAdds(a: nat, b: nat)
    ensures Pow10(a + b) == Pow10(a) * Pow10(b)
    decreases b
  {
    if b > 0 {
      PowAdds(a, b - 1);
      assert Pow10(a + b) == Pow10(a + (b - 1)) * 10;
      TimesTen(Pow10(a), Pow10(b - 1));
    }
  }

  lemma TimesTen(a: int, b: int)
    ensures a * (b * 10) == a * b * 10
  {
  }

  /** A number is its first digits, shifted, and the rest. */
  lemma {:induction false} NumberSplits(t: string, k: nat)
    requires AllDigits(t) && k <= |t|
    ensures var high := Number(t[..k]) * Pow10(|t| - k);
            high <= Number(t) < high + Pow10(|t| - k)
    decreases |t|
  {
    if k == |t| {
      assert t[..k] == t;
    } else {
      var u := t[..|t| - 1];
      NumberSplits(u, k);
      assert u[..k] == t[..k];
      TimesTen(Number(t[..k]), Pow10(|u| - k));
    }
  }

  lemma {:induction false} ZerosDropOff(t: string)
    requires AllDigits(t)
    ensures t != "" ==> AllDigits(Significant(t)) && Number(Significant(t)) == Number(t)
    decreases |t|
  {
    if |t| > 1 && t[0] == '0' {
      ZerosDropOff(t[1..]);
      ZeroInFront(t);
    }
  }

  lemma {:induction false} ZeroInFront(t: string)
    requires AllDigits(t) && |t| > 0 && t[0] == '0'
    ensures Number(t) == Number(t[1..])
    decreases |t|
  {
    if |t| == 1 {
      assert t[..0] == "" && t[1..] == "";
    } else {
      var u := t[..|t| - 1];
      ZeroInFront(u);
      assert u[1..] == t[1..][..|t| - 2];
    }
  }

  lemma MantissaDigit(negative: bool, t: string, k: nat)
    requires t != "" && AllDigits(t) && 0 < k <= 13
    ensures EncodeDigits(negative, t)[16 - k] == if k <= |t| then DigitAt(t, k - 1) else 0
  {
  }

  /** The mantissa holds the digits that fit, */
  lemma {:induction false} MantissaIs(negative: bool, t: string, k: nat)
    requires t != "" && AllDigits(t) && k <= 13 && k <= |t|
    ensures Mantissa(EncodeDigits(negative, t), k) == Number(t[..k])
    decreases k
  {
    hide EncodeDigits;
    if k > 0 {
      MantissaIs(negative, t, k - 1);
      MantissaDigit(negative, t, k);
      assert t[..k][..k - 1] == t[..k - 1];
    }
  }

  /** then zeros. */
  lemma {:induction false} MantissaPads(negative: bool, t: string, k: nat)
    requires t != "" && AllDigits(t) && |t| <= k <= 13
    ensures Mantissa(EncodeDigits(negative, t), k) == Number(t) * Pow10(k - |t|)
    decreases k
  {
    hide EncodeDigits;
    if k == |t| {
      MantissaIs(negative, t, k);
      assert t[..k] == t;
    } else {
      MantissaPads(negative, t, k - 1);
      MantissaDigit(negative, t, k);
      TimesTen(Number(t), Pow10(k - 1 - |t|));
    }
  }

  /** Every digit is decimal and the first significant one is not zero. */
  predicate WellFormed(n: Digits) {
    (forall i :: 0 <= i < 16 ==> n[i] <= 9) && n[15] != 0 && (n[0] == 0 || n[0] == 2)
  }

  /**
   The exponent has two decimal digits up to 100 significant digits, no more; its upper digit is
   kept in a byte, so that the exponent starts over at every 2560 digits.
   */
  lemma DigitsAreValid(negative: bool, t: string)
    requires t != "" && AllDigits(t) && t[0] != '0'
    ensures var n := EncodeDigits(negative, t);
            && (WellFormed(n) <==> (|t| - 1) % 2560 < 100)
            && Exponent(n) == (|t| - 1) % 2560
  {
    var n := EncodeDigits(negative, t);
    assert n[15] == DigitAt(t, 0) && n[1] == (|t| - 1) % 10 && n[2] == (|t| - 1) / 10 % 256;
    assert n[0] == 0 || n[0] == 2;
    ExponentBytes(|t| - 1);
    hide EncodeDigits;
  }

  lemma ExponentBytes(exp: nat)
    ensures exp / 10 % 256 * 10 + exp % 10 == exp % 2560
    ensures exp / 10 % 256 <= 9 <==> exp % 2560 < 100
  {
    var thousands := exp / 2560;
    var rest := exp % 2560;
    assert exp == 2560 * thousands + rest;
    assert exp / 10 == 256 * thousands + rest / 10;
  }

  /** How far a register's magnitude may fall short of an integer of `len` significant digits. */
  ghost predicate CloseBelow(number: nat, len: nat, decoded: real) {
    if len <= 13 then decoded == number as real
    else 0.0 <= number as real - decoded < Pow10(len - 13) as real
  }

  lemma Scaled(m: int, p: int, q: int)
    requires q > 0
    ensures (m as real / q as real) * (p as real) == (m * p) as real / q as real
  {
    assert (m * p) as real == m as real * p as real;
  }

  lemma Cancels(m: int, q: int)
    requires q > 0
    ensures (m * q) as real / q as real == m as real
  {
    assert (m * q) as real == m as real * q as real;
  }

  lemma Rearranged(a: int, b: int, c: int)
    ensures a * b * c == a * (b * c)
  {
  }

  lemma FieldsOf(negative: bool, t: string)
    requires t != "" && AllDigits(t) && t[0] != '0'
    ensures var n := EncodeDigits(negative, t);
            n != ZERO_DIGITS && Bit(n[0], 2) == negative && !Bit(n[0], 4) && Exponent(n) == (|t| - 1) % 2560
  {
    DigitsAreValid(negative, t);
    var n := EncodeDigits(negative, t);
    assert n[15] == DigitAt(t, 0) != 0;
    assert n[0] == if negative then 2 else 0;
    assert ZERO_DIGITS[15] == 0;
    hide EncodeDigits, Exponent;
  }

  lemma PositiveMantissa(negative: bool, t: string)
    requires t != "" && AllDigits(t) && t[0] != '0'
    ensures var n := EncodeDigits(negative, t);
            var m := (Mantissa(n, 13) * Pow10((|t| - 1) % 2560)) as real / Pow10(12) as real;
            DecodeBcd(n) == if negative then -m else m
  {
    hide EncodeDigits, Mantissa, Pow10, Bit, Exponent, Scale;
    FieldsOf(negative, t);
    ScaleUp(Mantissa(EncodeDigits(negative, t), 13), (|t| - 1) % 2560);
  }

  lemma ScaleUp(mantissa: nat, exp: nat)
    ensures Scale(mantissa, exp, false) == (mantissa * Pow10(exp)) as real / Pow10(12) as real
  {
    hide Pow10;
    Scaled(mantissa, Pow10(exp), Pow10(12));
  }

  /** The scaled mantissa of up to thirteen digits is the number itself, */
  lemma ShortMantissa(negative: bool, t: string)
    requires t != "" && AllDigits(t) && |t| <= 13
    ensures Mantissa(EncodeDigits(negative, t), 13) * Pow10(|t| - 1) == Number(t) * Pow10(12)
  {
    MantissaPads(negative, t, 13);
    hide EncodeDigits, Mantissa, Number, Pow10;
    var len := |t|;
    PowAdds(13 - len, len - 1);
    Rearranged(Number(t), Pow10(13 - len), Pow10(len - 1));
  }

  /** and of more digits, the number's first thirteen followed by zeros. */
  lemma LongMantissa(negative: bool, t: string)
    requires AllDigits(t) && |t| > 13
    ensures Mantissa(EncodeDigits(negative, t), 13) * Pow10(|t| - 1) == Number(t[..13]) * Pow10(|t| - 13) * Pow10(12)
  {
    MantissaIs(negative, t, 13);
    hide EncodeDigits, Mantissa, Number, Pow10;
    PowAdds(|t| - 13, 12);
    Rearranged(Number(t[..13]), Pow10(|t| - 13), Pow10(12));
  }

  /** A literal of L significant digits reads back exactly up to 13 digits, and short by less than 10^(L−13) past them. */
  lemma DigitsReadBack(negative: bool, t: string)
    requires t != "" && AllDigits(t) && t[0] != '0' && |t| <= 2560
    ensures var v := DecodeBcd(EncodeDigits(negative, t));
            CloseBelow(Number(t), |t|, if negative then -v else v)
  {
    hide DecodeBcd, EncodeDigits, Mantissa, Number, Pow10;
    PositiveMantissa(negative, t);
    assert (|t| - 1) % 2560 == |t| - 1;
    if |t| <= 13 {
      ShortMantissa(negative, t);
      Cancels(Number(t), Pow10(12));
    } else {
      LongMantissa(negative, t);
      var kept := Number(t[..13]) * Pow10(|t| - 13);
      Cancels(kept, Pow10(12));
      NumberSplits(t, 13);
    }
  }

  /** Beyond 2560 digits the exponent has started over: the register's number is far below the literal's. */
  lemma LongerIsLost(negative: bool, t: string)
    requires t != "" && AllDigits(t) && t[0] != '0' && |t| > 2560
    ensures var v := DecodeBcd(EncodeDigits(negative, t));
            !CloseBelow(Number(t), |t|, if negative then -v else v)
  {
    hide DecodeBcd, EncodeDigits, Mantissa, Number, Pow10;
    PositiveMantissa(negative, t);
    MantissaIs(negative, t, 13);
    NumberSplits(t, 13);
    FirstDigits(t);
    var exp := (|t| - 1) % 2560;
    assert |t| - 13 >= exp;
    PowAdds(exp, |t| - 13 - exp);
    AtLeast(Pow10(exp), Pow10(|t| - 13 - exp));
    FarBelow(Number(t), Number(t[..13]), Pow10(exp), Pow10(|t| - 13), Pow10(12));
  }

  lemma FirstDigits(t: string)
    requires AllDigits(t) && |t| >= 13 && t[0] != '0'
    ensures Number(t[..13]) >= Pow10(12) >= 2
  {
    var u := t[..13];
    NumberSplits(u, 1);
    assert u[..1][..0] == "";
    assert Number(u[..1]) == DigitAt(t, 0);
    AtLeast(Pow10(12), Number(u[..1]));
    assert Pow10(12) == 10 * Pow10(11);
    hide Number;
  }

  lemma AtLeast(a: int, b: int)
    requires a > 0 && b > 0
    ensures a * b >= a && b * a >= a
  {
  }

  lemma FarBelow(number: int, high: int, low: int, power: int, unit: int)
    requires number >= high * power && high >= unit >= 2 && power >= low > 0
    ensures number as real - (high * low) as real / unit as real >= power as real
  {
    var whole := high * power;
    Monotone(power, low, high);
    Monotone(number, whole, unit);
    Spread(high, power, unit);
    Distributes(whole, unit - 1, 1);
    Distributes(unit, number, -power);
    Divides(number - power, high * low, unit);
  }

  lemma Monotone(a: int, b: int, c: int)
    requires a >= b && c >= 0
    ensures a * c >= b * c && c * a >= c * b
  {
  }

  lemma Distributes(a: int, b: int, c: int)
    ensures a * (b + c) == a * b + a * c && (b + c) * a == b * a + c * a
  {
  }

  lemma Spread(high: int, power: int, unit: int)
    requires high >= unit >= 2 && power > 0
    ensures high * power * (unit - 1) >= power * unit
  {
    var most := high * (unit - 1);
    Monotone(unit - 1, 1, high);
    Monotone(most, unit, power);
    Rearranged(power, high, unit - 1);
    Swapped(power, high);
  }

  lemma Swapped(a: int, b: int)
    ensures a * b == b * a
  {
  }

  lemma Divides(a: int, b: int, unit: int)
    requires a * unit >= b && unit > 0
    ensures b as real / unit as real <= a as real
  {
    assert (a * unit) as real == a as real * unit as real;
  }

  /**
   Integer literals encode exactly: a signed integer reads back with its sign and as itself, cut
   after 13 significant digits, if and only if it has at most 2560 of them. Up to 100 its digits
   are all decimal.
   */
  lemma IntegerReadsBack(text: string, viaDouble: string -> Digits)
    requires IsPureInteger(Trim(text))
    ensures var t := Trim(text);
            var n := EncodeBcd(text, viaDouble);
            var v := DecodeBcd(n);
            var number := if IntegerOf(t) < 0 then -IntegerOf(t) else IntegerOf(t);
            var digits := |Significant(Unsigned(t))|;
            && (IntegerOf(t) == 0 ==> n == ZERO_DIGITS)
            && (IntegerOf(t) != 0 && digits <= 2560 ==> (WellFormed(n) <==> digits <= 100))
            && (CloseBelow(number, digits, if IntegerOf(t) < 0 then -v else v) <==> digits <= 2560)
  {
    hide DecodeBcd, EncodeDigits, Trim, Significant, Number, WellFormed, CloseBelow;
    var t := Trim(text);
    var u := Significant(Unsigned(t));
    SignificantIsDigits(Unsigned(t));
    ZerosDropOff(Unsigned(t));
    if u == "0" {
      ZeroReadsBack();
    } else {
      NotZero(u);
      if |u| <= 2560 {
        ValidUpTo100(t[0] == '-', u);
        DigitsReadBack(t[0] == '-', u);
      } else {
        LongerIsLost(t[0] == '-', u);
      }
    }
  }

  lemma ZeroReadsBack()
    ensures AllDigits("0") && Number("0") == 0 && CloseBelow(0, 1, DecodeBcd(ZERO_DIGITS))
  {
    assert "0"[..0] == "";
  }

  lemma ValidUpTo100(negative: bool, t: string)
    requires t != "" && AllDigits(t) && t[0] != '0' && |t| <= 2560
    ensures WellFormed(EncodeDigits(negative, t)) <==> |t| <= 100
  {
    hide WellFormed, EncodeDigits, Exponent;
    DigitsAreValid(negative, t);
  }

  lemma NotZero(u: string)
    requires u != "" && AllDigits(u) && u[0] != '0'
    ensures Number(u) > 0
  {
    NumberSplits(u, 1);
    assert u[..1][..0] == "";
    assert Number(u[..1]) == DigitAt(u, 0);
    Positive(Number(u[..1]), Pow10(|u| - 1));
  }

  lemma Positive(a: int, b: int)
    requires a > 0 && b > 0
    ensures a * b > 0
  {
  }
}
