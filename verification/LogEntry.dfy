/** One archived log entry: how it is built from a payload, what it encodes to, and how it is read back. */
module LogEntry {
  import opened Utf8
  import opened Json
  import Base64

  /** Hard ceiling for one encoded entry. */
  const MAX_ENTRY_BYTES: nat := 128 * 1024

  /** Hard ceiling for one raw payload. */
  const MAX_RAW_FRAGMENT: nat := 16 * 1024

  const NEWLINE: byte := 10

  datatype Option<+T> = None | Some(value: T)

  /** The entry's JSON object; `raw` is the base64 text of a payload that is not valid UTF-8. */
  datatype Entry = Entry(
    text: Bytes,
    filename: Bytes,
    lineNumber: nat,
    fragmentIndex: nat,
    fragmentFinal: bool,
    terminated: bool,
    offset: nat,
    sourceId: Bytes,
    partial: bool,
    raw: Option<Bytes>)

  function BuildEntry(payload: Bytes, filename: Bytes, sourceId: Bytes, lineNumber: nat, fragmentIndex: nat,
                      final: bool, terminated: bool, partial: bool, offset: nat): Entry {
    Entry(Replace(payload), filename, lineNumber, fragmentIndex, final, final && terminated, offset, sourceId, partial,
          if Valid(payload) then None else Some(Base64.Encode(payload)))
  }

  /** The raw payload a reader recovers from an entry. */
  function Payload(e: Entry): Bytes {
    if e.raw.Some? then Base64.Decode(e.raw.value) else e.text
  }

  /** The stretch of the decoded stream an entry stands for: its payload and the newline it terminates. */
  function Content(e: Entry): Bytes {
    Payload(e) + (if e.terminated then [NEWLINE] else [])
  }

  /** No payload byte is lost in an entry, valid UTF-8 or not. */
  lemma PayloadRecovered(payload: Bytes, filename: Bytes, sourceId: Bytes, lineNumber: nat, fragmentIndex: nat,
                         final: bool, terminated: bool, partial: bool, offset: nat)
    ensures Payload(BuildEntry(payload, filename, sourceId, lineNumber, fragmentIndex, final, terminated, partial,
                               offset))
         == payload
  {
    if Valid(payload) {
      ReplaceIsIdentityOnValid(payload);
    } else {
      Base64.RoundTrip(payload);
    }
  }

  // ---- Encoding ------------------------------------------------------------------------------------

  function Field(name: string, value: Bytes): (r: Bytes)
    ensures Clean(value) ==> Clean(r)
    ensures |r| == |name| + 4 + |value|
  {
    Ascii(",\"") + Ascii(name) + Ascii("\":") + value
  }

  /** The fields that do not carry the payload. */
  function MetadataFields(e: Entry): seq<Bytes> {
    [Field("filename", Quoted(e.filename)),
     Field("line_number", Digits(e.lineNumber)),
     Field("fragment_index", Digits(e.fragmentIndex)),
     Field("fragment_final", Flag(e.fragmentFinal)),
     Field("terminated", Flag(e.terminated)),
     Field("offset", Digits(e.offset)),
     Field("source_id", Quoted(e.sourceId)),
     if e.partial then Field("partial", Flag(true)) else []]
  }

  function Metadata(e: Entry): Bytes {
    Flatten(MetadataFields(e))
  }

  function RawField(e: Entry): Bytes {
    if e.raw.Some? then Field("raw_base64", Quoted(e.raw.value)) else []
  }

  function TextField(e: Entry): Bytes {
    Ascii("{\"_entry\":") + Quoted(e.text)
  }

  /** The compact JSON of an entry. */
  function EncodeEntry(e: Entry): Bytes {
    TextField(e) + Metadata(e) + RawField(e) + Ascii("}")
  }

  lemma QuotedClean(s: Bytes)
    ensures Clean(Quoted(s))
  {
    EscapeBounds(s);
  }

  lemma MetadataClean(e: Entry)
    ensures Clean(Metadata(e))
  {
    hide Quoted, Digits, Flag, Field;
    QuotedClean(e.filename);
    QuotedClean(e.sourceId);
    FlattenClean(MetadataFields(e));
  }

  /** An encoded entry holds no control character, so escaping it once more at most doubles it. */
  lemma EncodeEntryClean(e: Entry)
    ensures Clean(EncodeEntry(e))
  {
    hide Escape, Quoted, Metadata, Field;
    QuotedClean(e.text);
    MetadataClean(e);
    if e.raw.Some? {
      QuotedClean(e.raw.value);
    }
  }

  /** A value made from an entry that fits its ceiling always fits well inside one push body. */
  lemma ValueFitsBody(timestamp: nat, e: Entry)
    requires timestamp < PowerOfTen(20) && |EncodeEntry(e)| <= MAX_ENTRY_BYTES
    ensures |EncodeValue(timestamp, EncodeEntry(e))| <= 2 * MAX_ENTRY_BYTES + 47
  {
    EncodeEntryClean(e);
    EncodeValueLength(timestamp, EncodeEntry(e));
  }

  /** The escaped text of a payload is at most six times as long as the payload, valid UTF-8 or not. */
  lemma {:induction false} EscapedTextLength(payload: Bytes)
    ensures |Escape(Replace(payload))| <= 6 * |payload|
  {
    hide CharLength, BadLength, EscapeByte;
    if payload != [] {
      var n := CharLength(payload);
      if n > 0 {
        EscapeConcat(payload[..n], Replace(payload[n..]));
        EscapeBounds(payload[..n]);
        EscapedTextLength(payload[n..]);
      } else {
        var bad := BadLength(payload);
        EscapeConcat(REPLACEMENT, Replace(payload[bad..]));
        EscapePlain(REPLACEMENT);
        EscapedTextLength(payload[bad..]);
      }
    }
  }

  /**
   With at most ten KiB of metadata every payload within the raw ceiling fits the encoded ceiling, so the
   shrink loop is never entered.
   */
  lemma SmallMetadataFits(payload: Bytes, filename: Bytes, sourceId: Bytes, lineNumber: nat, fragmentIndex: nat,
                          final: bool, terminated: bool, partial: bool, offset: nat)
    requires |payload| <= MAX_RAW_FRAGMENT
    requires |Metadata(BuildEntry(payload, filename, sourceId, lineNumber, fragmentIndex, final, terminated, partial,
                                  offset))|
          <= 10 * 1024
    ensures |EncodeEntry(BuildEntry(payload, filename, sourceId, lineNumber, fragmentIndex, final, terminated, partial,
                                    offset))|
         <= MAX_ENTRY_BYTES
  {
    hide Valid, Replace, Metadata, Escape, Base64.Encode;
    EscapedTextLength(payload);
    Base64.EncodeShape(payload);
    EscapePlain(Base64.Encode(payload));
  }

  /** Metadata is at most six times the file name and source id, the digits of its counters, and 140 bytes. */
  lemma MetadataLength(e: Entry)
    requires e.lineNumber < PowerOfTen(20) && e.fragmentIndex < PowerOfTen(20) && e.offset < PowerOfTen(20)
    ensures |Metadata(e)| <= 6 * (|e.filename| + |e.sourceId|) + 220
  {
    EscapeBounds(e.filename);
    EscapeBounds(e.sourceId);
    DigitsLength(e.lineNumber, 20);
    DigitsLength(e.fragmentIndex, 20);
    DigitsLength(e.offset, 20);
    var m := MetadataFields(e);
    MetadataSum(m);
  }

  lemma MetadataSum(m: seq<Bytes>)
    requires |m| == 8
    ensures |Flatten(m)| == |m[0]| + |m[1]| + |m[2]| + |m[3]| + |m[4]| + |m[5]| + |m[6]| + |m[7]|
  {
    assert m[4..][4..] == [];
    FlattenFour(m);
    FlattenFour(m[4..]);
  }

  lemma FlattenFour(m: seq<Bytes>)
    requires |m| >= 4
    ensures |Flatten(m)| == |m[0]| + |m[1]| + |m[2]| + |m[3]| + |Flatten(m[4..])|
  {
    FlattenOne(m, 0);
    FlattenOne(m, 1);
    FlattenOne(m, 2);
    FlattenOne(m, 3);
    assert m[0..] == m;
  }

  lemma FlattenOne(m: seq<Bytes>, i: nat)
    requires i < |m|
    ensures |Flatten(m[i..])| == |m[i]| + |Flatten(m[i + 1..])|
  {
    assert m[i..][1..] == m[i + 1..];
  }
}
