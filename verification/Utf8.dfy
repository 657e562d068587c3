/**
 The UTF-8 validator against the standard: it accepts exactly the concatenations of encodings
 of Unicode scalar values (sections 3 and 4 of RFC 3629). Shifts and masks are written as
 division and remainder.
 */
module Utf8 {
  import opened Words

  /** Code points that may be encoded: no surrogates, nothing past U+10FFFF. */
  predicate Scalar(cp: int) {
    0 <= cp < 0xD800 || 0xE000 <= cp <= 0x10FFFF
  }

  /** The encoding of one scalar value, by the table in section 3 of RFC 3629. */
  function Encode(cp: int): seq<Byte>
    requires Scalar(cp)
  {
    if cp < 0x80 then [cp]
    else if cp < 0x800 then [0xC0 + cp / 64, 0x80 + cp % 64]
    else if cp < 0x10000 then [0xE0 + cp / 4096, 0x80 + cp / 64 % 64, 0x80 + cp % 64]
    else [0xF0 + cp / 262144, 0x80 + cp / 4096 % 64, 0x80 + cp / 64 % 64, 0x80 + cp % 64]
  }

  ghost predicate Scalars(cps: seq<int>) {
    forall i :: 0 <= i < |cps| ==> Scalar(cps[i])
  }

  function EncodeAll(cps: seq<int>): seq<Byte>
    requires Scalars(cps)
  {
    if cps == [] then [] else Encode(cps[0]) + EncodeAll(cps[1..])
  }

  // ---------------------------------------------------------------- one character

  /** How many bytes a lead byte announces, 0 when it is none. */
  function Length(lead: Byte): nat {
    if lead < 0x80 then 1 else if lead / 32 == 0x6 then 2 else if lead / 16 == 0xE then 3
    else if lead / 8 == 0x1E then 4 else 0
  }

  /** The lead byte's own bits. */
  function LeadBits(lead: Byte, n: nat): int
    requires 1 <= n <= 4
  {
    if n == 1 then lead else if n == 2 then lead % 32 else if n == 3 then lead % 16 else lead % 8
  }

  predicate Continues(b: Byte) { b / 64 == 2 }

  /** The code point of the first `k` bytes of a character of `n`. */
  function Point(s: seq<Byte>, n: nat, k: nat): int
    requires 1 <= k <= n <= 4 && n <= |s|
  {
    if k == 1 then LeadBits(s[0], n) else Point(s, n, k - 1) * 64 + s[k - 1] % 64
  }

  /** Overlong, a surrogate, or out of range. */
  predicate Refused(cp: int, n: nat) {
    (n == 2 && cp < 0x80) || (n == 3 && cp < 0x800) || (n == 4 && (cp < 0x10000 || cp > 0x10FFFF)) || 0xD800 <= cp <= 0xDFFF
  }

  /** The length of the character `s` begins with, 0 when there is none. */
  function First(s: seq<Byte>): (n: nat)
    ensures n <= |s|
  {
    if s == [] then 0
    else
      var n := Length(s[0]);
      if n == 0 || n > |s| then 0
      else if exists k :: 1 <= k < n && !Continues(s[k]) then 0
      else if Refused(Point(s, n, n), n) then 0
      else n
  }

  lemma PointUnfolds(s: seq<Byte>, n: nat)
    requires 1 <= n <= 4 && n <= |s|
    ensures n == 1 ==> Point(s, n, n) == LeadBits(s[0], n)
    ensures n == 2 ==> Point(s, n, n) == LeadBits(s[0], n) * 64 + s[1] % 64
    ensures n == 3 ==> Point(s, n, n) == (LeadBits(s[0], n) * 64 + s[1] % 64) * 64 + s[2] % 64
    ensures n == 4 ==> Point(s, n, n) == ((LeadBits(s[0], n) * 64 + s[1] % 64) * 64 + s[2] % 64) * 64 + s[3] % 64
  {
    if n == 2 {
      assert Point(s, 2, 1) == LeadBits(s[0], 2);
    } else if n == 3 {
      assert Point(s, 3, 2) == Point(s, 3, 1) * 64 + s[1] % 64;
    } else if n == 4 {
      assert Point(s, 4, 3) == Point(s, 4, 2) * 64 + s[2] % 64;
      assert Point(s, 4, 2) == Point(s, 4, 1) * 64 + s[1] % 64;
    }
  }

  lemma Split(q: int, r: int)
    requires 0 <= r < 64
    ensures (q * 64 + r) / 64 == q && (q * 64 + r) % 64 == r
  {
  }

  lemma Nested(p: int)
    requires 0 <= p
    ensures p / 4096 == p / 64 / 64
  {
  }

  lemma NestedTwice(p: int)
    requires 0 <= p
    ensures p / 262144 == p / 64 / 64 / 64
  {
    Nested(p);
    assert p / 4096 / 64 == p / 262144;
  }

  /** The groups of six bits of a point, and back. */
  lemma Groups(x: int, y: int, z: int, w: int)
    requires 0 <= x && 0 <= y < 64 && 0 <= z < 64 && 0 <= w < 64
    ensures var p := x * 64 + y;
            p / 64 == x && p % 64 == y
    ensures var p := (x * 64 + y) * 64 + z;
            p / 4096 == x && p / 64 % 64 == y && p % 64 == z
    ensures var p := ((x * 64 + y) * 64 + z) * 64 + w;
            p / 262144 == x && p / 4096 % 64 == y && p / 64 % 64 == z && p % 64 == w
  {
    var a := x * 64 + y;
    var b := a * 64 + z;
    var c := b * 64 + w;
    Split(x, y);
    Split(a, z);
    Split(b, w);
    Nested(b);
    Nested(c);
    NestedTwice(c);
  }

  lemma Regroups(p: int)
    requires 0 <= p
    ensures p / 64 * 64 + p % 64 == p
    ensures (p / 4096 * 64 + p / 64 % 64) * 64 + p % 64 == p
    ensures ((p / 262144 * 64 + p / 4096 % 64) * 64 + p / 64 % 64) * 64 + p % 64 == p
  {
    Nested(p);
    NestedTwice(p);
  }

  lemma ContinuationBits(b: Byte)
    requires Continues(b)
    ensures b == 0x80 + b % 64
  {
  }

  lemma LeadIs(lead: Byte)
    ensures Length(lead) == 2 ==> lead == 0xC0 + LeadBits(lead, 2)
    ensures Length(lead) == 3 ==> lead == 0xE0 + LeadBits(lead, 3)
    ensures Length(lead) == 4 ==> lead == 0xF0 + LeadBits(lead, 4)
  {
  }

  lemma FirstAccepts(s: seq<Byte>)
    requires First(s) > 0
    ensures var n := First(s);
            1 <= n <= 4 && n == Length(s[0]) && !Refused(Point(s, n, n), n) && forall k :: 1 <= k < n ==> Continues(s[k])
  {
    hide Point, Refused, Continues;
  }

  /** A character that is accepted is the encoding of its scalar value. */
  lemma FirstEncodes(s: seq<Byte>)
    requires First(s) > 0
    ensures var n := First(s); var cp := Point(s, n, n);
            Scalar(cp) && s[..n] == Encode(cp)
  {
    var n := First(s);
    FirstAccepts(s);
    PointUnfolds(s, n);
    hide First, Point, Length, LeadBits, Continues;
    var x := LeadBits(s[0], n);
    LeadIs(s[0]);
    var y := if n > 1 then s[1] % 64 else 0;
    var z := if n > 2 then s[2] % 64 else 0;
    var w := if n > 3 then s[3] % 64 else 0;
    LeadRange(s[0], n);
    Groups(x, y, z, w);
    if n > 1 {
      ContinuationBits(s[1]);
    }
    if n > 2 {
      ContinuationBits(s[2]);
    }
    if n > 3 {
      ContinuationBits(s[3]);
    }
    EncodeOf(s, n, x, y, z, w, Point(s, n, n));
  }

  lemma LeadRange(lead: Byte, n: nat)
    requires n == Length(lead) && 1 <= n
    ensures n == 1 ==> LeadBits(lead, n) == lead && lead < 0x80
    ensures 0 <= LeadBits(lead, n) && (n == 2 ==> LeadBits(lead, n) < 32) && (n == 3 ==> LeadBits(lead, n) < 16)
  {
  }

  lemma EncodeOf(s: seq<Byte>, n: nat, x: int, y: int, z: int, w: int, p: int)
    requires 1 <= n <= 4 && n <= |s| && 0 <= x && 0 <= y < 64 && 0 <= z < 64 && 0 <= w < 64 && !Refused(p, n)
    requires n == 1 ==> p == x == s[0] && x < 0x80
    requires n == 2 ==> p == x * 64 + y && p / 64 == x && p % 64 == y && s[0] == 0xC0 + x && s[1] == 0x80 + y && x < 32
    requires n == 3 ==> p == (x * 64 + y) * 64 + z && p / 4096 == x && p / 64 % 64 == y && p % 64 == z && x < 16 &&
                        s[0] == 0xE0 + x && s[1] == 0x80 + y && s[2] == 0x80 + z
    requires n == 4 ==> p == ((x * 64 + y) * 64 + z) * 64 + w && p / 262144 == x && p / 4096 % 64 == y &&
                        p / 64 % 64 == z && p % 64 == w &&
                        s[0] == 0xF0 + x && s[1] == 0x80 + y && s[2] == 0x80 + z && s[3] == 0x80 + w
    ensures Scalar(p) && s[..n] == Encode(p)
  {
  }

  /** Every encoding is accepted, whatever follows it. */
  lemma EncodedIsFirst(cp: int, rest: seq<Byte>)
    requires Scalar(cp)
    ensures First(Encode(cp) + rest) == |Encode(cp)| && Point(Encode(cp) + rest, |Encode(cp)|, |Encode(cp)|) == cp
  {
    var s := Encode(cp) + rest;
    var n := |Encode(cp)|;
    hide First, Point, Encode, LeadBits, Length, Refused, Continues;
    EncodedBytes(cp);
    EncodedPoint(cp, s);
    Accepts(s, n);
  }

  lemma EncodedPoint(cp: int, s: seq<Byte>)
    requires Scalar(cp) && Encode(cp) <= s
    ensures |Encode(cp)| > 0 && Point(s, |Encode(cp)|, |Encode(cp)|) == cp
  {
    hide Point, Encode, LeadBits, Length, Refused, Continues;
    Regroups(cp);
    EncodedBytes(cp);
    PointUnfolds(s, |Encode(cp)|);
  }

  lemma Accepts(s: seq<Byte>, n: nat)
    requires 1 <= n <= |s| && Length(s[0]) == n && (forall k :: 1 <= k < n ==> Continues(s[k])) && !Refused(Point(s, n, n), n)
    ensures First(s) == n
  {
    hide Point, Refused, Continues, Length;
  }

  lemma EncodedBytes(cp: int)
    requires Scalar(cp)
    ensures var e := Encode(cp); var n := |e|;
            && 1 <= n <= 4 && Length(e[0]) == n && (forall k :: 1 <= k < n ==> Continues(e[k])) && !Refused(cp, n)
            && (n == 1 ==> LeadBits(e[0], n) == cp)
            && (n == 2 ==> LeadBits(e[0], n) == cp / 64 && e[1] % 64 == cp % 64)
            && (n == 3 ==> LeadBits(e[0], n) == cp / 4096 && e[1] % 64 == cp / 64 % 64 && e[2] % 64 == cp % 64)
            && (n == 4 ==> LeadBits(e[0], n) == cp / 262144 && e[1] % 64 == cp / 4096 % 64 &&
                           e[2] % 64 == cp / 64 % 64 && e[3] % 64 == cp % 64)
  {
  }

  // ---------------------------------------------------------------- whole texts

  /** Characters to the end. */
  predicate Valid(s: seq<Byte>)
    decreases |s|
  {
    s == [] || (First(s) > 0 && Valid(s[First(s)..]))
  }

  function Decode(s: seq<Byte>): seq<int>
    requires Valid(s)
    decreases |s|
  {
    if s == [] then [] else [Point(s, First(s), First(s))] + Decode(s[First(s)..])
  }

  lemma {:induction false} DecodeThenEncode(s: seq<Byte>)
    requires Valid(s)
    ensures Scalars(Decode(s)) && EncodeAll(Decode(s)) == s
    decreases |s|
  {
    hide First, Point, Encode;
    if s != [] {
      var n := First(s);
      FirstEncodes(s);
      DecodeThenEncode(s[n..]);
      assert Decode(s)[1..] == Decode(s[n..]);
    }
  }

  lemma {:induction false} EncodeThenDecode(cps: seq<int>)
    requires Scalars(cps)
    ensures Valid(EncodeAll(cps)) && Decode(EncodeAll(cps)) == cps
    decreases |cps|
  {
    hide First, Point, Encode, Scalar;
    if cps != [] {
      var rest := EncodeAll(cps[1..]);
      EncodeThenDecode(cps[1..]);
      EncodedIsFirst(cps[0], rest);
      EncodeNotEmpty(cps[0]);
      var s := Encode(cps[0]) + rest;
      assert s[First(s)..] == rest;
    }
  }

  lemma EncodeNotEmpty(cp: int)
    requires Scalar(cp)
    ensures Encode(cp) != []
  {
  }

  /** Valid texts are exactly the concatenations of encodings of scalar values, each of one. */
  lemma ValidIsEncoded(s: seq<Byte>)
    ensures Valid(s) <==> exists cps :: Scalars(cps) && EncodeAll(cps) == s
    ensures forall cps, other :: Scalars(cps) && Scalars(other) && EncodeAll(cps) == s == EncodeAll(other) ==> cps == other
  {
    if Valid(s) {
      DecodeThenEncode(s);
    }
    forall cps | Scalars(cps) && EncodeAll(cps) == s ensures Valid(s) && Decode(s) == cps {
      EncodeThenDecode(cps);
    }
  }

  /** ASCII text is valid. */
  lemma {:induction false} AsciiIsValid(s: seq<Byte>)
    requires forall i :: 0 <= i < |s| ==> s[i] < 0x80
    ensures Valid(s)
    decreases |s|
  {
    if s != [] {
      assert First(s) == 1 by { assert s[0] < 0x80 && Length(s[0]) == 1; PointUnfolds(s, 1); }
      AsciiIsValid(s[1..]);
    }
  }

  // ---------------------------------------------------------------- the validator

  method IsValidUtf8(s: seq<Byte>) returns (valid: bool)
    ensures valid <==> exists cps :: Scalars(cps) && EncodeAll(cps) == s
  {
    hide Point, Encode, EncodeAll, Scalars, First, Valid;
    ValidIsEncoded(s);
    assert s[0..] == s;
    var i := 0;
    while i < |s|
      invariant i <= |s| && (Valid(s) <==> Valid(s[i..]))
      decreases |s| - i
    {
      var n := FirstAt(s, i);
      ValidFrom(s, i);
      if n == 0 {
        return false;
      }
      i := i + n;
    }
    NothingIsValid();
    assert s[i..] == [];
    return true;
  }

  lemma ValidFrom(s: seq<Byte>, i: nat)
    requires i < |s|
    ensures var n := First(s[i..]);
            i + n <= |s| && (Valid(s[i..]) <==> n > 0 && Valid(s[i + n..]))
  {
    hide First;
    var n := First(s[i..]);
    assert s[i..][n..] == s[i + n..];
  }

  lemma NothingIsValid()
    ensures Valid([])
  {
  }

  /** One turn of the validator's loop: the character at `i`, 0 when it is refused. */
  method FirstAt(s: seq<Byte>, i: nat) returns (n: nat)
    requires i < |s|
    ensures n == First(s[i..])
  {
    var c := s[i];
    n := Length(c);
    if n == 0 || i + n > |s| {
      return 0;
    }
    var cp := LeadBits(c, n);
    var k := 1;
    while k < n
      invariant 1 <= k <= n && cp == Point(s[i..], n, k)
      invariant forall j :: 1 <= j < k ==> Continues(s[i..][j])
    {
      var cc := s[i + k];
      assert cc == s[i..][k];
      if !Continues(cc) {
        return 0;
      }
      cp := cp * 64 + cc % 64;
      k := k + 1;
    }
    if Refused(cp, n) {
      return 0;
    }
  }
}
