/**
 The compact JSON the importer writes: string escaping of section 7 of RFC 8259 as the encoder does it
 (non-ASCII text kept as it is), decimal numbers, and the size bounds the batching relies on.
 Text is held as its UTF-8 bytes; no byte of a multi-byte character is ever escaped.
 */
module Json {
  import opened Utf8

  const QUOTE: byte := 0x22
  const BACKSLASH: byte := 0x5C

  /** ASCII literals; any other character becomes a question mark. */
  function Ascii(s: string): (r: Bytes)
    ensures |r| == |s| && Clean(r)
  {
    seq(|s|, i requires 0 <= i < |s| => if ' ' <= s[i] <= '~' then s[i] as int else 63)
  }

  /** No control characters: such text grows by at most a factor of two when it is escaped. */
  predicate Clean(s: Bytes) {
    forall i :: 0 <= i < |s| ==> s[i] >= 0x20
  }

  function HexDigit(v: nat): (c: byte)
    requires v < 16
    ensures c >= 0x20
  {
    if v < 10 then 48 + v else 87 + v
  }

  function HexValue(c: byte): nat {
    if 48 <= c <= 57 then c - 48 else if 97 <= c <= 102 then c - 87 else 0
  }

  /** The letter of a two-character escape, or 0 for a byte that has none. */
  function ShortEscape(b: byte): (c: byte)
    ensures c != 0 ==> c >= 0x20 && c != 117
  {
    match b
    case 0x22 => 0x22
    case 0x5C => 0x5C
    case 0x0A => 110
    case 0x0D => 114
    case 0x09 => 116
    case 0x08 => 98
    case 0x0C => 102
    case _ => 0
  }

  function EscapeByte(b: byte): (r: Bytes)
    ensures 1 <= |r| <= 6 && Clean(r)
    ensures b >= 0x20 ==> |r| <= 2
  {
    if ShortEscape(b) != 0 then [BACKSLASH, ShortEscape(b)]
    else if b < 0x20 then [BACKSLASH, 117, 48, 48, HexDigit(b / 16), HexDigit(b % 16)]
    else [b]
  }

  function Escape(s: Bytes): Bytes {
    if s == [] then [] else EscapeByte(s[0]) + Escape(s[1..])
  }

  /** The byte a two-character escape stands for. */
  function ShortValue(c: byte): byte {
    match c
    case 110 => 0x0A
    case 114 => 0x0D
    case 116 => 0x09
    case 98 => 0x08
    case 102 => 0x0C
    case _ => c
  }

  /** Reading escaped text back; malformed escapes are skipped. */
  function Unescape(r: Bytes): Bytes {
    if r == [] then []
    else if r[0] != BACKSLASH then [r[0]] + Unescape(r[1..])
    else if |r| < 2 then []
    else if r[1] != 117 then [ShortValue(r[1])] + Unescape(r[2..])
    else if |r| < 6 then []
    else [HexValue(r[4]) * 16 + HexValue(r[5])] + Unescape(r[6..])
  }

  /** Escaping loses nothing. */
  lemma {:induction false} UnescapeEscape(s: Bytes)
    ensures Unescape(Escape(s)) == s
  {
    if s != [] {
      UnescapeStep(s[0], Escape(s[1..]));
      UnescapeEscape(s[1..]);
      assert s == [s[0]] + s[1..];
    }
  }

  lemma UnescapeStep(b: byte, rest: Bytes)
    ensures Unescape(EscapeByte(b) + rest) == [b] + Unescape(rest)
  {
    var e := EscapeByte(b);
    assert (e + rest)[|e|..] == rest;
    if ShortEscape(b) == 0 && b < 0x20 {
      assert HexValue(HexDigit(b / 16)) == b / 16 && HexValue(HexDigit(b % 16)) == b % 16;
    }
  }

  /** Escaped text has no control characters, and escaping multiplies a length by at most six. */
  lemma {:induction false} EscapeBounds(s: Bytes)
    ensures Clean(Escape(s))
    ensures |Escape(s)| <= 6 * |s|
    ensures Clean(s) ==> |Escape(s)| <= 2 * |s|
  {
    if s != [] {
      EscapeBounds(s[1..]);
    }
  }

  lemma {:induction false} EscapeConcat(s: Bytes, t: Bytes)
    ensures Escape(s + t) == Escape(s) + Escape(t)
  {
    hide EscapeByte;
    if s == [] {
      assert s + t == t;
    } else {
      EscapeConcat(s[1..], t);
      assert (s + t)[1..] == s[1..] + t;
    }
  }

  /** Printable text without quotes or backslashes is written as it is. */
  lemma {:induction false} EscapePlain(s: Bytes)
    requires forall i :: 0 <= i < |s| ==> s[i] >= 0x20 && s[i] != QUOTE && s[i] != BACKSLASH
    ensures Escape(s) == s
  {
    if s != [] {
      EscapePlain(s[1..]);
      assert EscapeByte(s[0]) == [s[0]];
    }
  }

  function Flatten(parts: seq<Bytes>): Bytes {
    if parts == [] then [] else parts[0] + Flatten(parts[1..])
  }

  lemma {:induction false} FlattenClean(parts: seq<Bytes>)
    requires forall i :: 0 <= i < |parts| ==> Clean(parts[i])
    ensures Clean(Flatten(parts))
  {
    if parts != [] {
      FlattenClean(parts[1..]);
    }
  }

  // ---- Numbers and booleans ----------------------------------------------------------------------

  function Digits(n: nat): (r: Bytes)
    ensures Clean(r) && |r| >= 1
  {
    if n < 10 then [48 + n] else Digits(n / 10) + [48 + n % 10]
  }

  function PowerOfTen(k: nat): nat {
    if k == 0 then 1 else 10 * PowerOfTen(k - 1)
  }

  lemma {:induction false} DigitsLength(n: nat, k: nat)
    requires 0 < k && n < PowerOfTen(k)
    ensures |Digits(n)| <= k
  {
    if n >= 10 {
      DigitsLength(n / 10, k - 1);
    }
  }

  function Flag(b: bool): (r: Bytes)
    ensures Clean(r) && |r| <= 5
  {
    if b then Ascii("true") else Ascii("false")
  }

  function Quoted(s: Bytes): (r: Bytes) {
    [QUOTE] + Escape(s) + [QUOTE]
  }

  // ---- Push values and bodies --------------------------------------------------------------------

  /** One `[timestamp, line]` pair; the line, itself JSON, is escaped a second time. */
  function EncodeValue(timestamp: nat, line: Bytes): Bytes {
    Ascii("[") + Quoted(Digits(timestamp)) + Ascii(",") + Quoted(line) + Ascii("]")
  }

  /** A clean line at most doubles, so a value is never longer than twice its line and a constant. */
  lemma EncodeValueLength(timestamp: nat, line: Bytes)
    requires Clean(line) && timestamp < PowerOfTen(20)
    ensures |EncodeValue(timestamp, line)| <= 2 * |line| + 47
  {
    DigitsLength(timestamp, 20);
    EscapeBounds(Digits(timestamp));
    EscapeBounds(line);
  }

  function Join(values: seq<Bytes>): Bytes {
    if values == [] then []
    else if |values| == 1 then values[0]
    else Join(values[..|values| - 1]) + [44] + values[|values| - 1]
  }

  /** The push body for one stream. */
  function BuildBody(labels: Bytes, values: seq<Bytes>): Bytes {
    Ascii("{\"streams\":[{\"stream\":") + labels + Ascii(",\"values\":[") + Join(values) + Ascii("]}]}")
  }

  /** Adding one value lengthens the body by the value, and by a comma when it is not the first. */
  lemma BodyLength(labels: Bytes, values: seq<Bytes>, value: Bytes)
    ensures |BuildBody(labels, values + [value])|
         == |BuildBody(labels, values)| + |value| + (if values == [] then 0 else 1)
  {
    var longer := values + [value];
    assert longer[..|values|] == values;
  }
}
