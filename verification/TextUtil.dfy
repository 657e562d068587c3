/** String helpers of the parsers. Text is bytes, one to a character. */
module TextUtil {
  import opened Words

  // ---------------------------------------------------------------- splitting

  /** The first character of `s` in `seps`, its length when there is none. */
  function Find(s: string, seps: set<char>): (i: nat)
    ensures i <= |s| && (i < |s| ==> s[i] in seps)
    ensures forall k :: 0 <= k < i ==> s[k] !in seps
  {
    if s == [] || s[0] in seps then 0 else 1 + Find(s[1..], seps)
  }

  /** The text between separators, empty pieces kept. */
  function Pieces(s: string, seps: set<char>): seq<string>
    decreases |s|
  {
    var i := Find(s, seps);
    if i == |s| then [s] else [s[..i]] + Pieces(s[i + 1..], seps)
  }

  function NonEmpty(pieces: seq<string>): seq<string>
    decreases |pieces|
  {
    if pieces == [] then []
    else (if pieces[0] == "" then [] else [pieces[0]]) + NonEmpty(pieces[1..])
  }

  const NEWLINES: set<char> := {'\n', '\r'}

  function SplitLines(text: string): (lines: seq<string>)
    ensures lines != []
  {
    Pieces(text, NEWLINES)
  }

  function SplitWords(text: string): seq<string> { NonEmpty(Pieces(text, {' '})) }

  function Join(pieces: seq<string>, sep: char): string
    decreases |pieces|
  {
    if pieces == [] then "" else if |pieces| == 1 then pieces[0] else pieces[0] + [sep] + Join(pieces[1..], sep)
  }

  predicate Free(s: string, seps: set<char>) {
    forall k :: 0 <= k < |s| ==> s[k] !in seps
  }

  /** The first separator is where a free prefix ends. */
  lemma {:induction false} FindAfter(a: string, b: string, seps: set<char>)
    requires Free(a, seps)
    ensures Find(a + b, seps) == |a| + Find(b, seps)
    decreases |a|
  {
    if a == "" {
      assert a + b == b;
    } else {
      assert (a + b)[1..] == a[1..] + b;
      FindAfter(a[1..], b, seps);
    }
  }

  lemma FindNone(s: string, seps: set<char>)
    requires Free(s, seps)
    ensures Find(s, seps) == |s|
  {
    FindAfter(s, "", seps);
    assert s + "" == s;
  }

  lemma PiecesOf(a: string, c: char, b: string, seps: set<char>)
    requires Free(a, seps) && c in seps
    ensures Pieces(a + [c] + b, seps) == [a] + Pieces(b, seps)
  {
    var s := a + [c] + b;
    assert s == a + ([c] + b);
    FindAfter(a, [c] + b, seps);
    assert Find([c] + b, seps) == 0;
    assert s[..|a|] == a && s[|a| + 1..] == b;
  }

  /** Joined pieces split into the pieces, when no piece holds a separator. */
  lemma {:induction false} SplitJoin(pieces: seq<string>, c: char, seps: set<char>)
    requires pieces != [] && c in seps && forall i :: 0 <= i < |pieces| ==> Free(pieces[i], seps)
    ensures Pieces(Join(pieces, c), seps) == pieces
    decreases |pieces|
  {
    if |pieces| == 1 {
      FindNone(pieces[0], seps);
    } else {
      SplitJoin(pieces[1..], c, seps);
      PiecesOf(pieces[0], c, Join(pieces[1..], c), seps);
    }
  }

  lemma {:induction false} AllKept(pieces: seq<string>)
    requires forall i :: 0 <= i < |pieces| ==> pieces[i] != ""
    ensures NonEmpty(pieces) == pieces
    decreases |pieces|
  {
    if pieces != [] {
      AllKept(pieces[1..]);
    }
  }

  lemma {:induction false} KeptAppend(a: seq<string>, b: seq<string>)
    ensures NonEmpty(a + b) == NonEmpty(a) + NonEmpty(b)
    decreases |a|
  {
    if a == [] {
      assert a + b == b;
    } else {
      assert (a + b)[1..] == a[1..] + b;
      KeptAppend(a[1..], b);
    }
  }

  /** A text up to its next separator, and the rest. */
  lemma PieceEnds(text: string, start: nat, i: nat, seps: set<char>)
    requires start <= i <= |text| && Free(text[start..i], seps)
    ensures i < |text| && text[i] in seps ==>
              Pieces(text[start..], seps) == [text[start..i]] + Pieces(text[i + 1..], seps)
    ensures i == |text| ==> Pieces(text[start..], seps) == [text[start..]]
  {
    if i < |text| && text[i] in seps {
      assert text[start..] == text[start..i] + [text[i]] + text[i + 1..];
      PiecesOf(text[start..i], text[i], text[i + 1..], seps);
    } else if i == |text| {
      assert text[start..i] == text[start..];
      FindNone(text[start..], seps);
    }
  }

  lemma FreeGrows(text: string, start: nat, i: nat, seps: set<char>)
    requires start <= i < |text| && Free(text[start..i], seps) && text[i] !in seps
    ensures Free(text[start..i + 1], seps)
  {
    assert text[start..i + 1] == text[start..i] + [text[i]];
  }

  lemma PieceMoves(words: seq<string>, piece: seq<string>, rest: seq<string>)
    ensures words + (piece + rest) == (words + piece) + rest
  {
  }

  /** What splitting into lines still has to give from `start` on. */
  function LinesFrom(text: string, start: nat): seq<string>
    requires start <= |text|
  {
    Pieces(text[start..], NEWLINES)
  }

  lemma LineEnds(text: string, start: nat, i: nat)
    requires start <= i < |text| && Free(text[start..i], NEWLINES) && (text[i] == '\n' || text[i] == '\r')
    ensures LinesFrom(text, start) == [text[start..i]] + LinesFrom(text, i + 1)
  {
    hide Pieces;
    PieceEnds(text, start, i, NEWLINES);
  }

  lemma LastLine(text: string, start: nat)
    requires start <= |text| && Free(text[start..|text|], NEWLINES)
    ensures LinesFrom(text, start) == [text[start..]]
  {
    hide Pieces;
    PieceEnds(text, start, |text|, NEWLINES);
  }

  lemma NoNewline(c: char)
    requires c != '\n' && c != '\r'
    ensures c !in NEWLINES
  {
  }

  lemma AllLines(text: string)
    ensures LinesFrom(text, 0) == SplitLines(text) && [] + SplitLines(text) == SplitLines(text)
  {
    hide Pieces;
    assert text[0..] == text;
  }

  method SplitIntoLines(text: string) returns (lines: seq<string>)
    ensures lines == SplitLines(text)
  {
    hide Pieces, Free, SplitLines, LinesFrom, NEWLINES;
    lines := [];
    var start, i := 0, 0;
    ghost var all := SplitLines(text);
    AllLines(text);
    NothingIsFree(text, 0, NEWLINES);
    while i < |text|
      invariant 0 <= start <= i <= |text| && Free(text[start..i], NEWLINES)
      invariant lines + LinesFrom(text, start) == all
    {
      if text[i] == '\n' || text[i] == '\r' {
        LineEnds(text, start, i);
        PieceMoves(lines, [text[start..i]], LinesFrom(text, i + 1));
        lines := lines + [text[start..i]];
        start := i + 1;
        NothingIsFree(text, start, NEWLINES);
        assert lines + LinesFrom(text, start) == all;
      } else {
        NoNewline(text[i]);
        FreeGrows(text, start, i, NEWLINES);
      }
      i := i + 1;
    }
    LastLine(text, start);
    lines := lines + [text[start..]];
  }

  lemma NothingIsFree(text: string, start: nat, seps: set<char>)
    requires start <= |text|
    ensures Free(text[start..start], seps)
  {
  }

  lemma OneKept(piece: string)
    ensures NonEmpty([piece]) == if piece == "" then [] else [piece]
  {
    assert [piece][1..] == [];
  }

  /** What splitting into words still has to give from `start` on. */
  function WordsFrom(text: string, start: nat): seq<string> {
    if start <= |text| then NonEmpty(Pieces(text[start..], {' '})) else []
  }

  lemma WordEnds(text: string, start: nat, i: nat)
    requires start <= i <= |text| && Free(text[start..i], {' '}) && (i < |text| ==> text[i] == ' ')
    ensures WordsFrom(text, start) == (if i > start then [text[start..i]] else []) + WordsFrom(text, i + 1)
  {
    PieceEnds(text, start, i, {' '});
    var piece := text[start..i];
    OneKept(piece);
    hide Pieces, NonEmpty;
    if i < |text| {
      KeptAppend([piece], Pieces(text[i + 1..], {' '}));
    } else {
      assert text[start..] == piece;
      assert [piece] + [] == [piece];
    }
  }

  lemma AllWords(text: string)
    ensures WordsFrom(text, 0) == SplitWords(text) && [] + SplitWords(text) == SplitWords(text)
  {
    hide Pieces, NonEmpty;
    assert text[0..] == text;
  }

  method SplitIntoWords(text: string) returns (words: seq<string>)
    ensures words == SplitWords(text)
  {
    hide Pieces, Free, WordsFrom, SplitWords, NonEmpty;
    words := [];
    var start, i := 0, 0;
    ghost var all := SplitWords(text);
    AllWords(text);
    NothingIsFree(text, 0, {' '});
    while i <= |text|
      invariant 0 <= start <= i <= |text| + 1
      invariant start <= |text| ==> i <= |text| && Free(text[start..i], {' '})
      invariant words + WordsFrom(text, start) == all
    {
      if i == |text| || text[i] == ' ' {
        WordEnds(text, start, i);
        PieceMoves(words, if i > start then [text[start..i]] else [], WordsFrom(text, i + 1));
        if i > start {
          words := words + [text[start..i]];
        }
        start := i + 1;
        assert words + WordsFrom(text, start) == all;
        if start <= |text| {
          NothingIsFree(text, start, {' '});
        }
      } else {
        FreeGrows(text, start, i, {' '});
      }
      i := i + 1;
    }
    assert WordsFrom(text, start) == [] by { NoMoreWords(text, start); }
  }

  lemma NoMoreWords(text: string, start: nat)
    requires start > |text|
    ensures WordsFrom(text, start) == []
  {
  }

  // ---------------------------------------------------------------- spaces

  /** Byte `k` of the text, 0 past its end. */
  function At(s: string, k: nat): int {
    if k < |s| then s[k] as int else 0
  }

  /** The length of a UTF-8 encoded space separator, or a tab, at `i`; 0 for none. */
  function SpaceAt(s: string, i: nat): (n: nat)
    ensures n <= 3
  {
    var c, d, e := At(s, i), At(s, i + 1), At(s, i + 2);
    if c == 0x20 || c == 0x09 then 1
    else if c == 0xC2 && d == 0xA0 then 2
    else if c == 0xE1 && d == 0x9A && e == 0x80 then 3
    else if c == 0xE2 && d == 0x80 && (e <= 0x8A || e == 0xAF) then 3
    else if c == 0xE2 && d == 0x81 && e == 0x9F then 3
    else if c == 0xE3 && d == 0x80 && e == 0x80 then 3
    else 0
  }

  /** The length of a space separator ending at `e`, 0 for none; the shortest is taken. */
  function SpaceBefore(s: string, e: nat): (n: nat)
    ensures n <= e && n <= 3
  {
    if e >= 1 && SpaceAt(s, e - 1) == 1 then 1
    else if e >= 2 && SpaceAt(s, e - 2) == 2 then 2
    else if e >= 3 && SpaceAt(s, e - 3) == 3 then 3
    else 0
  }

  /** Past the leading spaces. */
  function SkipStart(s: string, b: nat): nat
    decreases |s| - b
  {
    if b < |s| && SpaceAt(s, b) > 0 then SkipStart(s, b + SpaceAt(s, b)) else b
  }

  /** Before the trailing spaces. */
  function SkipEnd(s: string, b: nat, e: nat): nat
    decreases e
  {
    if e > b && SpaceBefore(s, e) > 0 then SkipEnd(s, b, e - SpaceBefore(s, e)) else e
  }

  lemma {:induction false} SkipEndStays(s: string, b: nat, e: nat)
    ensures SkipEnd(s, b, e) <= e
    decreases e
  {
    if e > b && SpaceBefore(s, e) > 0 {
      SkipEndStays(s, b, e - SpaceBefore(s, e));
    }
  }

  /** Spaces off both ends. A text that ends inside a space's encoding trims to nothing. */
  function Trim(s: string): string {
    var b := SkipStart(s, 0);
    var e := SkipEnd(s, b, |s|);
    SkipEndStays(s, b, |s|);
    if b <= e then s[b..e] else ""
  }

  method TrimText(s: string) returns (r: string)
    ensures r == Trim(s)
  {
    var b: nat, e: nat := 0, |s|;
    while b < e && SpaceAt(s, b) > 0
      invariant SkipStart(s, b) == SkipStart(s, 0)
      decreases e - b
    {
      b := b + SpaceAt(s, b);
    }
    while e > b && SpaceBefore(s, e) > 0
      invariant SkipEnd(s, b, e) == SkipEnd(s, b, |s|) && e <= |s|
      decreases e
    {
      e := e - SpaceBefore(s, e);
    }
    r := if b <= e then s[b..e] else "";
  }

  predicate Ascii(s: string) {
    forall i :: 0 <= i < |s| ==> s[i] as int < 0x80
  }

  predicate IsSpace(c: char) { c == ' ' || c == '\t' }

  /** ASCII text without a space at either end is left as it is. */
  lemma TrimKeeps(s: string)
    requires Ascii(s) && (s != "" ==> !IsSpace(s[0]) && !IsSpace(s[|s| - 1]))
    ensures Trim(s) == s
  {
    if s != "" {
      assert SpaceAt(s, 0) == 0;
      assert SpaceBefore(s, |s|) == 0;
      assert s[0..|s|] == s;
    }
  }

  /** A leading space goes. */
  lemma TrimLeading(s: string)
    requires Ascii(s) && s != "" && !IsSpace(s[0]) && !IsSpace(s[|s| - 1])
    ensures Trim(" " + s) == s
  {
    var t := " " + s;
    assert SpaceAt(t, 0) == 1;
    assert SpaceAt(t, 1) == 0;
    assert SkipStart(t, 0) == SkipStart(t, 1) == 1;
    assert SpaceBefore(t, |t|) == 0;
    assert t[1..|t|] == s;
  }

  /** The text before a comment, trimmed. */
  function StripInlineComment(line: string): string {
    Trim(line[..Find(line, {'#'})])
  }

  lemma NothingToStrip(line: string)
    requires Ascii(line) && Free(line, {'#'}) && (line != "" ==> !IsSpace(line[0]) && !IsSpace(line[|line| - 1]))
    ensures StripInlineComment(line) == line
  {
    FindNone(line, {'#'});
    TrimKeeps(line);
    assert line[..|line|] == line;
  }

  // ---------------------------------------------------------------- letters and numbers

  predicate StartsWith(s: string, prefix: string) {
    |s| >= |prefix| && s[..|prefix|] == prefix
  }

  function Upper(c: char): char { if 'a' <= c <= 'z' then (c as int - 32) as char else c }

  function Lower(c: char): char { if 'A' <= c <= 'Z' then (c as int + 32) as char else c }

  function ToUpper(s: string): (r: string)
    ensures |r| == |s| && forall i :: 0 <= i < |s| ==> r[i] == Upper(s[i])
  {
    seq(|s|, i requires 0 <= i < |s| => Upper(s[i]))
  }

  function ToLower(s: string): (r: string)
    ensures |r| == |s| && forall i :: 0 <= i < |s| ==> r[i] == Lower(s[i])
  {
    seq(|s|, i requires 0 <= i < |s| => Lower(s[i]))
  }

  function HexDigit(c: char): (d: int)
    ensures -1 <= d < 16
  {
    if '0' <= c <= '9' then c as int - '0' as int
    else if 'a' <= c <= 'f' then c as int - 'a' as int + 10
    else if 'A' <= c <= 'F' then c as int - 'A' as int + 10
    else -1
  }

  function DecDigit(c: char): (d: int)
    ensures -1 <= d < 10
  {
    if '0' <= c <= '9' then c as int - '0' as int else -1
  }

  function Times(v: nat, base: nat): nat { v * base }

  /** A numeral's value in a base, when every character is a digit. */
  function Value(digit: char -> int, base: nat, s: string): Option<nat>
    decreases |s|
  {
    if s == "" then Some(0)
    else
      var d := digit(s[|s| - 1]);
      match Value(digit, base, s[..|s| - 1])
      case None => None
      case Some(v) => if d < 0 then None else Some(Times(v, base) + d)
  }

  /** A whole-string hexadecimal number of one to eight digits, a leading plus allowed. */
  function ParseHex(s: string): Option<nat> {
    var t := if s != "" && s[0] == '+' then s[1..] else s;
    if t == "" || |t| > 8 then None else Value(HexDigit, 16, t)
  }

  function Signed(negative: bool, v: int): int { if negative then -v else v }

  /** A whole-string decimal number of one to eighteen digits, a sign allowed. */
  function ParseDec(s: string): Option<int> {
    var signed := s != "" && (s[0] == '+' || s[0] == '-');
    var t := if signed then s[1..] else s;
    if t == "" || |t| > 18 then None
    else
      match Value(DecDigit, 10, t)
      case None => None
      case Some(v) => Some(Signed(signed && s[0] == '-', v))
  }

  lemma {:induction false} BadDigitStays(digit: char -> int, base: nat, s: string, k: nat)
    requires k < |s| && digit(s[k]) < 0
    ensures Value(digit, base, s) == None
    decreases |s|
  {
    if k < |s| - 1 {
      BadDigitStays(digit, base, s[..|s| - 1], k);
    }
  }

  /** The loop of both parsers. */
  method ParseDigits(digit: char -> int, base: nat, t: string) returns (r: Option<nat>)
    ensures r == Value(digit, base, t)
  {
    var v := 0;
    var i := 0;
    while i < |t|
      invariant i <= |t| && Value(digit, base, t[..i]) == Some(v)
    {
      var d := digit(t[i]);
      if d < 0 {
        BadDigitStays(digit, base, t, i);
        return None;
      }
      assert t[..i + 1][..i] == t[..i];
      v := Times(v, base) + d;
      i := i + 1;
    }
    assert t[..i] == t;
    r := Some(v);
  }

  method ParseHexText(s: string) returns (r: Option<nat>)
    ensures r == ParseHex(s)
  {
    var t := if s != "" && s[0] == '+' then s[1..] else s;
    if t == "" || |t| > 8 {
      return None;
    }
    r := ParseDigits(HexDigit, 16, t);
  }

  method ParseDecText(s: string) returns (r: Option<int>)
    ensures r == ParseDec(s)
  {
    var signed := s != "" && (s[0] == '+' || s[0] == '-');
    var t := if signed then s[1..] else s;
    if t == "" || |t| > 18 {
      return None;
    }
    var v := ParseDigits(DecDigit, 10, t);
    r := if v.None? then None else Some(Signed(signed && s[0] == '-', v.value));
  }

  // ---------------------------------------------------------------- two hex digits

  function HexChar(d: int): char
    requires 0 <= d < 16
  {
    if d < 10 then ('0' as int + d) as char else ('A' as int + d - 10) as char
  }

  /** A byte as two upper-case hexadecimal digits. */
  function Hex2(v: Byte): (s: string)
    ensures |s| == 2
  {
    [HexChar(v / 16), HexChar(v % 16)]
  }

  lemma HexCharIs(d: int)
    requires 0 <= d < 16
    ensures HexDigit(HexChar(d)) == d && HexDigit(Lower(HexChar(d))) == d
    ensures HexChar(d) != '+' && Lower(HexChar(d)) != '+' && !IsSpace(HexChar(d)) && HexChar(d) as int < 0x80
    ensures HexChar(d) != '#' && HexChar(d) != ':' && HexChar(d) != '\n' && HexChar(d) != '\r'
  {
  }

  lemma TwoDigits(digit: char -> int, base: nat, a: char, b: char)
    requires digit(a) >= 0 && digit(b) >= 0
    ensures Value(digit, base, [a, b]) == Some(Times(digit(a), base) + digit(b))
  {
    assert [a, b][..1] == [a];
    assert [a][..0] == [];
    assert Value(digit, base, [a]) == Some(Times(0, base) + digit(a));
    assert Times(0, base) == 0;
  }

  /** A byte's two digits parse to the byte, in either case of letters. */
  lemma Hex2Parses(v: Byte)
    ensures ParseHex(Hex2(v)) == Some(v) && ParseHex(ToLower(Hex2(v))) == Some(v)
  {
    HexCharIs(v / 16);
    HexCharIs(v % 16);
    TwoDigits(HexDigit, 16, HexChar(v / 16), HexChar(v % 16));
    TwoDigits(HexDigit, 16, Lower(HexChar(v / 16)), Lower(HexChar(v % 16)));
    assert ToLower(Hex2(v)) == [Lower(HexChar(v / 16)), Lower(HexChar(v % 16))];
  }
}
