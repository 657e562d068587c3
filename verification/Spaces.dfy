/**
 White space in text: tabs and Unicode's space separators, as their UTF-8 encodings.
 */
module Spaces {
  import opened TextUtil
  import Utf8

  /** A tab, or a code point of Unicode's category Zs. */
  predicate Separator(cp: int) {
    cp == 0x09 || cp == 0x20 || cp == 0xA0 || cp == 0x1680 || 0x2000 <= cp <= 0x200A || cp == 0x202F || cp == 0x205F || cp == 0x3000
  }

  /** The bytes at `i` are the code point's encoding. */
  predicate EncodedAt(s: string, i: nat, cp: int)
    requires Utf8.Scalar(cp)
  {
    var e := Utf8.Encode(cp);
    i + |e| <= |s| && forall k :: 0 <= k < |e| ==> s[i + k] as int == e[k]
  }

  /** The first two bytes of U+2000 to U+200A, and no third one of a character. */
  predicate CutShort(s: string, i: nat) {
    At(s, i) == 0xE2 && At(s, i + 1) == 0x80 && At(s, i + 2) < 0x80
  }

  lemma {:induction false} TakenForSpace(s: string, i: nat, cp: int)
    requires Separator(cp) && EncodedAt(s, i, cp)
    ensures SpaceAt(s, i) == |Utf8.Encode(cp)|
  {
    var e := Utf8.Encode(cp);
    assert s[i] as int == e[0];
    if |e| > 1 {
      assert s[i + 1] as int == e[1];
    }
    if |e| > 2 {
      assert s[i + 2] as int == e[2];
    }
  }

  lemma SpaceIsSome(s: string, i: nat) returns (cp: int)
    requires i < |s| && SpaceAt(s, i) > 0 && !CutShort(s, i)
    ensures Separator(cp) && EncodedAt(s, i, cp)
  {
    var c, d, e := At(s, i), At(s, i + 1), At(s, i + 2);
    cp := if c == 0x20 || c == 0x09 then c
          else if c == 0xC2 then 0xA0
          else if c == 0xE1 then 0x1680
          else if c == 0xE2 && d == 0x80 then 0x2000 + (e - 0x80)
          else if c == 0xE2 then 0x205F
          else 0x3000;
  }

  /** Where no character is cut short, white space is exactly what encodes a separator. */
  lemma SpaceIsEncoded(s: string, i: nat)
    requires i < |s| && !CutShort(s, i)
    ensures SpaceAt(s, i) > 0 <==> exists cp :: Separator(cp) && EncodedAt(s, i, cp)
    ensures forall cp :: Separator(cp) && EncodedAt(s, i, cp) ==> SpaceAt(s, i) == |Utf8.Encode(cp)|
  {
    hide SpaceAt, EncodedAt, CutShort;
    if SpaceAt(s, i) > 0 {
      var cp := SpaceIsSome(s, i);
    }
    forall cp | Separator(cp) && EncodedAt(s, i, cp) ensures SpaceAt(s, i) == |Utf8.Encode(cp)| && SpaceAt(s, i) > 0 {
      TakenForSpace(s, i, cp);
      NotNothing(cp);
    }
  }

  lemma NotNothing(cp: int)
    requires Utf8.Scalar(cp)
    ensures |Utf8.Encode(cp)| > 0
  {
  }

  /** A character cut short at the end of the text counts three bytes: more than there are. */
  lemma CutShortCountsPastTheEnd(s: string)
    requires |s| >= 2 && s[|s| - 2] as int == 0xE2 && s[|s| - 1] as int == 0x80
    ensures SpaceAt(s, |s| - 2) == 3 && |s| - 2 + 3 > |s|
  {
  }
}
