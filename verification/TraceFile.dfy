/**
 Trace files: the length-prefixed records Shared/TraceWriter.cpp appends and
 tools/read_trace.py reads back.
 */
module TraceFile {
  import opened Words

  type Word = x: int | 0 <= x < 0x10000

  type Version = x: int | 1 <= x <= 2 witness 2

  /** Seconds, as 64 bits hold them. */
  type Time = x: int | 0 <= x < 0x1_0000_0000_0000_0000

  const MAGIC := 0x54493539
  const USER_KEY_DOWN := 1
  const USER_KEY_UP := 2
  const FRAME_PAYLOAD := 125

  // ---------------------------------------------------------------- little-endian fields

  function Pow256(n: nat): (r: nat)
    ensures r > 0
  {
    if n == 0 then 1 else 256 * Pow256(n - 1)
  }

  /** The low `width` bytes of a number, least significant first. */
  function Le(width: nat, v: nat): (r: seq<Byte>)
    ensures |r| == width
  {
    if width == 0 then [] else [v % 256] + Le(width - 1, v / 256)
  }

  function FromLe(bytes: seq<Byte>): nat {
    if bytes == [] then 0 else bytes[0] + 256 * FromLe(bytes[1..])
  }

  lemma {:induction false} LeRoundTrip(width: nat, v: nat)
    requires v < Pow256(width)
    ensures FromLe(Le(width, v)) == v
  {
    if width > 0 {
      LeRoundTrip(width - 1, v / 256);
      assert Le(width, v)[1..] == Le(width - 1, v / 256);
    }
  }

  function TotalWidth(widths: seq<nat>): nat {
    if widths == [] then 0 else widths[0] + TotalWidth(widths[1..])
  }

  /** Fields of the given widths, one after the other. */
  function Pack(widths: seq<nat>, values: seq<nat>): (r: seq<Byte>)
    requires |widths| == |values|
    ensures |r| == TotalWidth(widths)
    decreases |widths|
  {
    if widths == [] then [] else Le(widths[0], values[0]) + Pack(widths[1..], values[1..])
  }

  function Unpack(widths: seq<nat>, bytes: seq<Byte>): (r: seq<nat>)
    requires |bytes| >= TotalWidth(widths)
    ensures |r| == |widths|
    decreases |widths|
  {
    if widths == [] then []
    else [FromLe(bytes[..widths[0]])] + Unpack(widths[1..], bytes[widths[0]..])
  }

  predicate Fits(widths: seq<nat>, values: seq<nat>) {
    |widths| == |values| && forall i :: 0 <= i < |widths| ==> values[i] < Pow256(widths[i])
  }

  lemma {:induction false} UnpackPack(widths: seq<nat>, values: seq<nat>, rest: seq<Byte>)
    requires Fits(widths, values)
    ensures Unpack(widths, Pack(widths, values) + rest) == values
    decreases |widths|
  {
    hide Le, FromLe, Pow256;
    if widths != [] {
      var bytes := Pack(widths, values) + rest;
      var first, others := Le(widths[0], values[0]), Pack(widths[1..], values[1..]);
      assert bytes == first + (others + rest);
      assert bytes[..widths[0]] == first;
      assert bytes[widths[0]..] == others + rest;
      LeRoundTrip(widths[0], values[0]);
      UnpackPack(widths[1..], values[1..], rest);
      assert values == [values[0]] + values[1..];
    }
  }

  // ---------------------------------------------------------------- frames

  /** What a frame contributes to the file, as the numbers the writer sees. */
  datatype FrameRec = FrameRec(
    seqno: nat, pc: Word, opcode: Word, fA: Word, fB: Word, kr: Word, sr: Word, ext: Word, preg: Word, flags: Word,
    libAddr: Word, r5: Byte, digit: Byte, ramAddr: Byte, ramOp: Byte, regAddr: Byte, libReadPos: Byte,
    cycleWeight: Byte, displayOn: Byte, maxDigitDecay: Byte,
    a: Digits, b: Digits, c: Digits, d: Digits, e: Digits, sout: Digits)

  predicate Shaped(widths: seq<nat>, quads: nat, words: nat, bytes: nat) {
    && |widths| == quads + words + bytes
    && forall i :: 0 <= i < |widths| ==> widths[i] == if i < quads then 4 else if i < quads + words then 2 else 1
  }

  lemma {:induction false} TotalOfShape(widths: seq<nat>, quads: nat, words: nat, bytes: nat)
    requires Shaped(widths, quads, words, bytes)
    ensures TotalWidth(widths) == quads * 4 + words * 2 + bytes
    decreases |widths|
  {
    if quads > 0 {
      TotalOfShape(widths[1..], quads - 1, words, bytes);
    } else if words > 0 {
      TotalOfShape(widths[1..], 0, words - 1, bytes);
    } else if bytes > 0 {
      TotalOfShape(widths[1..], 0, 0, bytes - 1);
    }
  }

  /** Two 4-byte, ten 2-byte and nine 1-byte fields. */
  function HeadWidths(): (r: seq<nat>)
    ensures Shaped(r, 2, 10, 9) && TotalWidth(r) == 37
  {
    var r := seq(21, i => if i < 2 then 4 else if i < 12 then 2 else 1);
    TotalOfShape(r, 2, 10, 9);
    r
  }

  function HeadWords(f: FrameRec): (r: seq<Word>)
    ensures |r| == 10
  {
    [f.pc, f.opcode, f.fA, f.fB, f.kr, f.sr, f.ext, f.preg, f.flags, f.libAddr]
  }

  function HeadBytes(f: FrameRec): (r: seq<Byte>)
    ensures |r| == 9
  {
    [f.r5, f.digit, f.ramAddr, f.ramOp, f.regAddr, f.libReadPos, f.cycleWeight, f.displayOn, f.maxDigitDecay]
  }

  function HeadValues(f: FrameRec): (r: seq<nat>)
    ensures |r| == 21
  {
    [0, f.seqno] + HeadWords(f) + HeadBytes(f)
  }

  /** Two digits per byte, the even one low. */
  function PackNibbles(s: Digits): (r: seq<Byte>)
    ensures |r| == 8
  {
    seq(8, i requires 0 <= i < 8 => s[2 * i] % 16 + 16 * (s[2 * i + 1] % 16))
  }

  function UnpackNibbles(bytes: seq<Byte>): Digits
    requires |bytes| == 8
  {
    seq(16, i requires 0 <= i < 16 => if i % 2 == 0 then bytes[i / 2] % 16 else bytes[i / 2] / 16)
  }

  lemma NibblesRoundTrip(s: Digits)
    ensures UnpackNibbles(PackNibbles(s)) == seq(16, i requires 0 <= i < 16 => s[i] % 16)
  {
    var bytes := PackNibbles(s);
    forall i | 0 <= i < 16
      ensures UnpackNibbles(bytes)[i] == s[i] % 16
    {
      var k := i / 2;
      SplitByte(s[2 * k] % 16, s[2 * k + 1] % 16);
    }
  }

  lemma SplitByte(lo: nat, hi: nat)
    requires lo < 16 && hi < 16
    ensures (lo + 16 * hi) % 16 == lo && (lo + 16 * hi) / 16 == hi
  {
  }

  function FramePayload(f: FrameRec): (r: seq<Byte>)
    ensures |r| == FRAME_PAYLOAD
  {
    Pack(HeadWidths(), HeadValues(f)) + f.a + f.b + f.c + f.d + f.e + PackNibbles(f.sout)
  }

  function ByteAt(values: seq<nat>, i: nat): Byte
    requires i < |values|
  {
    values[i] % 256
  }

  function WordAt(values: seq<nat>, i: nat): Word
    requires i < |values|
  {
    values[i] % 0x10000
  }

  /** The reader shows bits 4 to 11 of EXT only. */
  function ShownExt(ext: Word): Word { ext / 16 % 256 }

  function Flag(b: Byte): Byte { if b == 0 then 0 else 1 }

  function FrameFrom(v: seq<nat>, r: seq<Byte>): FrameRec
    requires |v| == 21 && |r| == 88
  {
    FrameRec(v[1], WordAt(v, 2), WordAt(v, 3), WordAt(v, 4), WordAt(v, 5), WordAt(v, 6), WordAt(v, 7),
             ShownExt(WordAt(v, 8)), WordAt(v, 9), WordAt(v, 10), WordAt(v, 11),
             ByteAt(v, 12), ByteAt(v, 13), ByteAt(v, 14), ByteAt(v, 15), ByteAt(v, 16), ByteAt(v, 17),
             ByteAt(v, 18), Flag(ByteAt(v, 19)), ByteAt(v, 20),
             r[0..16], r[16..32], r[32..48], r[48..64], r[64..80], UnpackNibbles(r[80..88]))
  }

  /** A frame payload read back: the writer's 125 bytes, or the older 124-byte form without a decay byte. */
  function ParseFrame(payload: seq<Byte>): Option<FrameRec> {
    if |payload| == 125 then
      Some(FrameFrom(Unpack(HeadWidths(), payload), payload[37..]))
    else if |payload| == 124 then
      var filter := payload[35];
      var head := payload[..35] + [if filter >= 3 then 0 else 1, filter];
      Some(FrameFrom(Unpack(HeadWidths(), head), payload[36..]))
    else None
  }

  /** A frame as the reader shows it: the bus keeps only nibbles, EXT its bits 4 to 11, the display flag is 0 or 1. */
  function AsWritten(f: FrameRec): FrameRec {
    f.(ext := ShownExt(f.ext), displayOn := Flag(f.displayOn), sout := seq(16, i requires 0 <= i < 16 => f.sout[i] % 16))
  }

  lemma FrameRoundTrip(f: FrameRec)
    requires f.seqno < Pow256(4)
    ensures ParseFrame(FramePayload(f)) == Some(AsWritten(f)) && FramePayload(f)[..4] == [0, 0, 0, 0]
  {
    PayloadStarts(f);
    hide Pack, Unpack, HeadWidths, PackNibbles, UnpackNibbles, HeadValues, Pow256, FrameFrom;
    var head := Pack(HeadWidths(), HeadValues(f));
    var tail := f.a + f.b + f.c + f.d + f.e + PackNibbles(f.sout);
    var p := FramePayload(f);
    assert p == head + tail;
    HeadFits(f);
    UnpackPack(HeadWidths(), HeadValues(f), tail);
    assert p[37..] == tail;
    FrameFromParts(f, tail);
  }

  /** The suppressed count, always 0. */
  lemma PayloadStarts(f: FrameRec)
    ensures FramePayload(f)[..4] == [0, 0, 0, 0]
  {
    hide HeadWords, HeadBytes, PackNibbles;
    assert Le(3, 0) == [0, 0, 0] by {
      assert Le(2, 0) == [0, 0];
    }
    assert Pack(HeadWidths(), HeadValues(f))[..4] == Le(4, 0);
  }

  lemma FrameFromParts(f: FrameRec, tail: seq<Byte>)
    requires tail == f.a + f.b + f.c + f.d + f.e + PackNibbles(f.sout)
    ensures |tail| == 88 && FrameFrom(HeadValues(f), tail) == AsWritten(f)
  {
    hide HeadValues, PackNibbles, UnpackNibbles, ShownExt, Flag, WordAt, ByteAt;
    HeadReads(f);
    TailSlices(f.a, f.b, f.c, f.d, f.e, PackNibbles(f.sout));
    NibblesRoundTrip(f.sout);
  }

  lemma HeadReads(f: FrameRec)
    ensures HeadValues(f)[1] == f.seqno
    ensures forall k :: 2 <= k < 12 ==> WordAt(HeadValues(f), k) == HeadWords(f)[k - 2]
    ensures forall k :: 12 <= k < 21 ==> ByteAt(HeadValues(f), k) == HeadBytes(f)[k - 12]
  {
    hide HeadWords, HeadBytes;
  }

  lemma HeadFits(f: FrameRec)
    requires f.seqno < Pow256(4)
    ensures Fits(HeadWidths(), HeadValues(f))
  {
    hide HeadWidths, HeadWords, HeadBytes, Pow256;
    PowersOf256();
  }

  lemma TimeFits(t: Time)
    ensures t < Pow256(8)
  {
    PowersOf256();
    assert Pow256(5) == 0x100_0000_0000 && Pow256(6) == 0x1_0000_0000_0000 && Pow256(7) == 0x100_0000_0000_0000;
  }

  lemma PowersOf256()
    ensures Pow256(1) == 256 && Pow256(2) == 0x10000 && Pow256(4) == 0x100000000
  {
    assert Pow256(3) == 0x1000000;
  }

  lemma TailSlices(a: Digits, b: Digits, c: Digits, d: Digits, e: Digits, s: seq<Byte>)
    requires |s| == 8
    ensures var t := a + b + c + d + e + s;
            t[0..16] == a && t[16..32] == b && t[32..48] == c && t[48..64] == d && t[64..80] == e && t[80..88] == s
  {
  }

  // ---------------------------------------------------------------- records

  datatype Rec =
    | SessionStart(timestamp: nat, model: Option<Byte>)
    | FrameEvent(frame: FrameRec)
    | Gap(lost: nat)
    | UserEvent(kind: Byte, row: Byte, col: Byte)
    | SessionEnd(events: nat)

  function TypeByte(r: Rec): Byte {
    match r
    case SessionStart(_, _) => 1
    case FrameEvent(_) => 2
    case SessionEnd(_) => 3
    case UserEvent(_, _, _) => 4
    case Gap(_) => 5
  }

  function Payload(r: Rec): (p: seq<Byte>)
    ensures |p| <= FRAME_PAYLOAD
  {
    match r
    case SessionStart(t, m) => Le(8, t) + if m.Some? then [m.value] else []
    case FrameEvent(f) => FramePayload(f)
    case SessionEnd(n) => Le(4, n) + Le(4, 0)
    case UserEvent(k, row, col) => [k, row, col, 0]
    case Gap(n) => Le(4, n)
  }

  function Record(r: Rec): seq<Byte> {
    [TypeByte(r)] + Le(2, |Payload(r)|) + Payload(r)
  }

  function Records(rs: seq<Rec>): seq<Byte> {
    if rs == [] then [] else Record(rs[0]) + Records(rs[1..])
  }

  lemma {:induction false} RecordsAppend(rs: seq<Rec>, r: Rec)
    ensures Records(rs + [r]) == Records(rs) + Record(r)
  {
    hide Record;
    if rs == [] {
      assert rs + [r] == [r];
      assert [r][1..] == [];
    } else {
      RecordsAppend(rs[1..], r);
      assert (rs + [r])[1..] == rs[1..] + [r];
    }
  }

  function FileHeader(model: Byte): (r: seq<Byte>)
    ensures |r| == 16
  {
    Le(4, MAGIC) + Le(2, 2) + Le(2, model) + Le(8, 0)
  }

  /** The counters of a record fit their fields; only key events have a row and a column. */
  predicate FitsRecord(r: Rec) {
    match r
    case SessionStart(t, _) => t < Pow256(8)
    case FrameEvent(f) => f.seqno < Pow256(4)
    case SessionEnd(n) => n < Pow256(4)
    case UserEvent(k, row, col) => k == USER_KEY_DOWN || k == USER_KEY_UP || row == col == 0
    case Gap(n) => n < Pow256(4)
  }

  // ---------------------------------------------------------------- reading

  /** What the reader keeps of one record. */
  datatype Parsed = Skipped | Kept(rec: Rec) | Malformed

  /** A version 1 start has no model; a version 2 start has one when its ninth byte is there. */
  function ParseStart(version: Version, p: seq<Byte>): Parsed {
    if |p| < 8 then Malformed
    else Kept(SessionStart(FromLe(p[..8]), if version == 2 && |p| >= 9 then Some(p[8]) else None))
  }

  function ParseUser(p: seq<Byte>): Parsed {
    if |p| < 4 then Malformed
    else if p[0] == USER_KEY_DOWN || p[0] == USER_KEY_UP then Kept(UserEvent(p[0], p[1], p[2]))
    else Kept(UserEvent(p[0], 0, 0))
  }

  function ParseRecord(version: Version, kind: Byte, p: seq<Byte>): Parsed {
    match kind
    case 1 => ParseStart(version, p)
    case 2 => (match ParseFrame(p) case Some(f) => Kept(FrameEvent(f)) case None => Malformed)
    case 3 => if |p| < 8 then Malformed else Kept(SessionEnd(FromLe(p[..4])))
    case 4 => ParseUser(p)
    case _ => Skipped
  }

  /** Where the first record ends; its payload may be cut short by the end of the file. */
  function FirstEnd(bytes: seq<Byte>): (end: nat)
    requires |bytes| >= 3
    ensures 3 <= end <= |bytes|
  {
    var length := FromLe(bytes[1..3]);
    if 3 + length <= |bytes| then 3 + length else |bytes|
  }

  function FirstRecord(version: Version, bytes: seq<Byte>): Parsed
    requires |bytes| >= 3
  {
    ParseRecord(version, bytes[0], bytes[3..FirstEnd(bytes)])
  }

  /** The records of a body: a short tail ends the file, a malformed record fails it. */
  function ParseBody(version: Version, bytes: seq<Byte>): Option<seq<Rec>>
    decreases |bytes|
  {
    if |bytes| < 3 then Some([])
    else
      match FirstRecord(version, bytes)
      case Malformed => None
      case Skipped => ParseBody(version, bytes[FirstEnd(bytes)..])
      case Kept(r) => Prepended([r], ParseBody(version, bytes[FirstEnd(bytes)..]))
  }

  function Prepended(rs: seq<Rec>, rest: Option<seq<Rec>>): Option<seq<Rec>> {
    match rest
    case None => None
    case Some(more) => Some(rs + more)
  }

  /** What the reader returns of what was written: everything but the gaps. */
  function Readable(rs: seq<Rec>): seq<Rec> {
    if rs == [] then []
    else
      match rs[0]
      case Gap(_) => Readable(rs[1..])
      case FrameEvent(f) => [FrameEvent(AsWritten(f))] + Readable(rs[1..])
      case r => [r] + Readable(rs[1..])
  }

  lemma RecordRoundTrip(r: Rec)
    requires FitsRecord(r)
    ensures ParseRecord(2, TypeByte(r), Payload(r))
         == match r case Gap(_) => Skipped case FrameEvent(f) => Kept(FrameEvent(AsWritten(f))) case _ => Kept(r)
  {
    hide FramePayload, ParseFrame, AsWritten, Le, FromLe, Pow256;
    match r
    case SessionStart(t, m) =>
      LeRoundTrip(8, t);
      assert Payload(r)[..8] == Le(8, t);
    case FrameEvent(f) => FrameRoundTrip(f);
    case SessionEnd(n) =>
      LeRoundTrip(4, n);
      assert Payload(r)[..4] == Le(4, n);
    case _ =>
  }

  /** Reading what was written returns every record but the gaps, in order. */
  lemma {:induction false} BodyRoundTrip(rs: seq<Rec>)
    requires forall r :: r in rs ==> FitsRecord(r)
    ensures ParseBody(2, Records(rs)) == Some(Readable(rs))
  {
    hide Payload, TypeByte, ParseRecord, FromLe, AsWritten, FitsRecord, Record;
    if rs != [] {
      var r, rest := rs[0], rs[1..];
      BodyRoundTrip(rest);
      RecordRoundTrip(r);
      RecordSlices(r, Records(rest));
    }
  }

  lemma RecordSlices(r: Rec, rest: seq<Byte>)
    ensures var bytes := Record(r) + rest;
            var length := |Payload(r)|;
            && FromLe(bytes[1..3]) == length && 3 + length <= |bytes|
            && bytes[0] == TypeByte(r) && bytes[3..3 + length] == Payload(r) && bytes[3 + length..] == rest
  {
    var bytes := Record(r) + rest;
    assert Pow256(2) == 0x10000;
    LeRoundTrip(2, |Payload(r)|);
    assert bytes[1..3] == Le(2, |Payload(r)|);
  }

  function VersionOf(file: seq<Byte>): Option<Version> {
    if |file| < 16 || FromLe(file[..4]) != MAGIC then None
    else if FromLe(file[4..6]) == 1 then Some(1)
    else if FromLe(file[4..6]) == 2 then Some(2)
    else None
  }

  /** load_trace on a whole file: the records, or nothing for a bad header or record. */
  function LoadTrace(file: seq<Byte>): Option<seq<Rec>> {
    if VersionOf(file).None? then None else ParseBody(VersionOf(file).value, file[16..])
  }

  /** The reader's loop: the records kept so far and the bytes not read yet. */
  method ReadTrace(file: seq<Byte>) returns (records: Option<seq<Rec>>)
    ensures records == LoadTrace(file)
  {
    hide ParseRecord, FromLe;
    var version := VersionOf(file);
    if version.None? {
      return None;
    }
    var kept, rest := [], file[16..];
    PrependedNothing(kept, ParseBody(version.value, rest));
    while |rest| >= 3
      invariant Prepended(kept, ParseBody(version.value, rest)) == ParseBody(version.value, file[16..])
      decreases |rest|
    {
      match FirstRecord(version.value, rest) {
        case Malformed => return None;
        case Skipped =>
        case Kept(r) =>
          PrependedTwice(kept, r, ParseBody(version.value, rest[FirstEnd(rest)..]));
          kept := kept + [r];
      }
      rest := rest[FirstEnd(rest)..];
    }
    PrependedNothing(kept, Some([]));
    return Some(kept);
  }

  lemma PrependedNothing(rs: seq<Rec>, rest: Option<seq<Rec>>)
    ensures rs == [] ==> Prepended(rs, rest) == rest
    ensures rest == Some([]) ==> Prepended(rs, rest) == Some(rs)
  {
    if rest.Some? {
      assert [] + rest.value == rest.value && rs + [] == rs;
    }
  }

  lemma PrependedTwice(rs: seq<Rec>, r: Rec, rest: Option<seq<Rec>>)
    ensures Prepended(rs, Prepended([r], rest)) == Prepended(rs + [r], rest)
  {
    if rest.Some? {
      assert rs + ([r] + rest.value) == (rs + [r]) + rest.value;
    }
  }

  lemma FileRoundTrip(model: Byte, rs: seq<Rec>)
    requires forall r :: r in rs ==> FitsRecord(r)
    ensures LoadTrace(FileHeader(model) + Records(rs)) == Some(Readable(rs))
  {
    var file := FileHeader(model) + Records(rs);
    BodyRoundTrip(rs);
    assert file[16..] == Records(rs);
    assert file[..4] == Le(4, MAGIC) && file[4..6] == Le(2, 2);
    PowersOf256();
    LeRoundTrip(4, MAGIC);
    LeRoundTrip(2, 2);
  }
}
