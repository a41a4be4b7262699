/** Bytes and the well-formed byte sequences of section 4 of RFC 3629. */
module Utf8 {

  type byte = b: int | 0 <= b < 256

  type Bytes = seq<byte>

  /** A continuation byte: the test `(b & 0xC0) == 0x80`. */
  predicate IsContinuation(b: byte) {
    0x80 <= b < 0xC0
  }

  /** The byte count announced by the lead byte of a well-formed sequence; 0 for a byte that cannot lead. */
  function LeadLength(lead: byte): nat {
    if lead < 0x80 then 1
    else if 0xC2 <= lead <= 0xDF then 2
    else if 0xE0 <= lead <= 0xEF then 3
    else if 0xF0 <= lead <= 0xF4 then 4
    else 0
  }

  /** The second byte of a longer sequence; the narrowed ranges rule out overlong forms and surrogates. */
  predicate SecondOk(lead: byte, b: byte) {
    && IsContinuation(b)
    && (lead == 0xE0 ==> 0xA0 <= b)
    && (lead == 0xED ==> b <= 0x9F)
    && (lead == 0xF0 ==> 0x90 <= b)
    && (lead == 0xF4 ==> b <= 0x8F)
  }

  /** The length of the well-formed character at the start of `s`, or 0 when there is none. */
  function CharLength(s: Bytes): (n: nat)
    requires s != []
    ensures n <= |s| && n <= 4
  {
    var n := LeadLength(s[0]);
    if n <= 1 then n
    else if |s| < n || !SecondOk(s[0], s[1]) then 0
    else if n >= 3 && !IsContinuation(s[2]) then 0
    else if n == 4 && !IsContinuation(s[3]) then 0
    else n
  }

  /** Whether `s` decodes as UTF-8 without an error. */
  predicate Valid(s: Bytes) {
    s == [] || (CharLength(s) > 0 && Valid(s[CharLength(s)..]))
  }

  /** How many bytes one replacement character stands for: the longest prefix of a well-formed character. */
  function BadLength(s: Bytes): (n: nat)
    requires s != [] && CharLength(s) == 0
    ensures 1 <= n <= |s|
  {
    if LeadLength(s[0]) < 3 || |s| < 2 || !SecondOk(s[0], s[1]) then 1
    else if LeadLength(s[0]) == 4 && |s| >= 3 && IsContinuation(s[2]) then 3
    else 2
  }

  /** The UTF-8 form of U+FFFD. */
  const REPLACEMENT: Bytes := [0xEF, 0xBF, 0xBD]

  /** `s.decode("utf-8", errors="replace")`, written back as UTF-8 bytes. */
  function Replace(s: Bytes): Bytes {
    if s == [] then []
    else if CharLength(s) > 0 then s[..CharLength(s)] + Replace(s[CharLength(s)..])
    else REPLACEMENT + Replace(s[BadLength(s)..])
  }

  /** Decoding with replacement changes nothing exactly when the bytes were well formed. */
  lemma {:induction false} ReplaceIsIdentityOnValid(s: Bytes)
    ensures Replace(s) == s <==> Valid(s)
  {
    if s != [] {
      if CharLength(s) > 0 {
        var n := CharLength(s);
        ReplaceIsIdentityOnValid(s[n..]);
        assert Replace(s)[n..] == Replace(s[n..]);
        assert s == s[..n] + s[n..];
      }
      // Otherwise the result begins with a replacement character, which is well formed, and `s` does not.
    }
  }

  /** Replacement at most triples the length. */
  lemma {:induction false} ReplaceLength(s: Bytes)
    ensures |Replace(s)| <= 3 * |s|
  {
    if s != [] {
      if CharLength(s) > 0 {
        ReplaceLength(s[CharLength(s)..]);
      } else {
        ReplaceLength(s[BadLength(s)..]);
      }
    }
  }

  /** CharLength looks at no more than the bytes of the character it finds. */
  lemma CharLengthPrefix(s: Bytes, t: Bytes)
    requires s != [] && s <= t
    requires CharLength(s) > 0
    ensures CharLength(t) == CharLength(s)
  {
    assert t[0] == s[0];
    assert |s| > 1 ==> t[1] == s[1];
    assert |s| > 2 ==> t[2] == s[2];
    assert |s| > 3 ==> t[3] == s[3];
  }

  lemma {:induction false} ValidConcat(s: Bytes, t: Bytes)
    requires Valid(s) && Valid(t)
    ensures Valid(s + t)
  {
    if s == [] {
      assert s + t == t;
    } else {
      CharLengthPrefix(s, s + t);
      var n := CharLength(s);
      ValidConcat(s[n..], t);
      assert (s + t)[n..] == s[n..] + t;
    }
  }

  // ---- Backing a cut up to a character boundary -------------------------------------------------

  /** The largest index at most `end` whose preceding byte is not a continuation byte, or 0. */
  function SkipBack(s: Bytes, end: nat): (index: nat)
    requires end <= |s|
    ensures index <= end
    ensures index > 0 ==> !IsContinuation(s[index - 1])
    ensures forall i :: index <= i < end ==> IsContinuation(s[i])
  {
    if end > 0 && IsContinuation(s[end - 1]) then SkipBack(s, end - 1) else end
  }

  /** How many bytes the reader expects after a lead byte; unlike LeadLength it does not reject bad leads. */
  function NeedAfter(lead: byte): nat {
    if lead < 0x80 then 1 else if lead < 0xE0 then 2 else if lead < 0xF0 then 3 else 4
  }

  /** Back `end` up so that `s[..end]` does not cut a multi-byte sequence. */
  function SafeEnd(s: Bytes, end: int): (r: nat)
    ensures r <= |s|
    ensures 0 <= end ==> r <= end
  {
    if end <= 0 then 0
    else if end >= |s| then |s|
    else
      var index := SkipBack(s, end);
      if index == 0 then end
      else if index - 1 + NeedAfter(s[index - 1]) > end then index - 1
      else end
  }

  /** The loop that computes SafeEnd. */
  method ComputeSafeEnd(s: Bytes, end: int) returns (r: nat)
    ensures r == SafeEnd(s, end)
  {
    if end <= 0 {
      return 0;
    }
    if end >= |s| {
      return |s|;
    }
    var index := end;
    while index > 0 && IsContinuation(s[index - 1])
      invariant 0 <= index <= end
      invariant SkipBack(s, index) == SkipBack(s, end)
    {
      index := index - 1;
    }
    if index == 0 {
      return end;
    }
    var lead := s[index - 1];
    var need;
    if lead < 0x80 {
      need := 1;
    } else if lead < 0xE0 {
      need := 2;
    } else if lead < 0xF0 {
      need := 3;
    } else {
      need := 4;
    }
    if index - 1 + need > end {
      return index - 1;
    }
    return end;
  }

  lemma {:induction false} SkipBackPrefix(s: Bytes, t: Bytes, end: nat)
    requires end <= |s| && end <= |t| && s[..end] == t[..end]
    ensures SkipBack(s, end) == SkipBack(t, end)
  {
    if end > 0 {
      assert s[end - 1] == s[..end][end - 1] == t[end - 1];
      assert s[..end - 1] == s[..end][..end - 1] == t[..end - 1];
      SkipBackPrefix(s, t, end - 1);
    }
  }

  /** The cut depends only on the bytes before it, so any longer look-ahead gives the same cut. */
  lemma SafeEndPrefix(s: Bytes, t: Bytes, end: nat)
    requires end < |s| && end < |t| && s[..end] == t[..end]
    ensures SafeEnd(s, end) == SafeEnd(t, end)
  {
    SkipBackPrefix(s, t, end);
    var index := SkipBack(s, end);
    if index > 0 {
      assert s[index - 1] == s[..end][index - 1] == t[..end][index - 1] == t[index - 1];
    }
  }

  /** SkipBack past a leading part that ends just before a non-continuation byte. */
  lemma {:induction false} SkipBackShift(s: Bytes, n: nat, end: nat)
    requires n < end <= |s| && !IsContinuation(s[n])
    ensures SkipBack(s, end) > n
    ensures SkipBack(s[n..], end - n) == SkipBack(s, end) - n
    decreases end
  {
    assert s[n..][end - n - 1] == s[end - 1];
    if IsContinuation(s[end - 1]) {
      SkipBackShift(s, n, end - 1);
    }
  }

  /** A character is its lead byte followed by continuation bytes only. */
  lemma CharShape(s: Bytes)
    requires s != [] && CharLength(s) > 0
    ensures !IsContinuation(s[0]) && NeedAfter(s[0]) == CharLength(s) == LeadLength(s[0])
    ensures forall i :: 1 <= i < CharLength(s) ==> IsContinuation(s[i])
  {
  }

  /**
   In well-formed text every cut that SafeEnd makes is on a character boundary, and it gives up at most
   three bytes: with room for four bytes it never backs up to nothing.
   */
  lemma {:induction false} SafeEndOnBoundary(s: Bytes, end: nat)
    requires Valid(s) && 0 < end < |s|
    ensures Valid(s[..SafeEnd(s, end)]) && Valid(s[SafeEnd(s, end)..])
    ensures end - 3 <= SafeEnd(s, end) <= end
    decreases |s|
  {
    hide CharLength, SafeEnd;
    var n := CharLength(s);
    if n < end {
      CutInTail(s, end);
      SafeEndOnBoundary(s[n..], end - n);
      JoinBoundary(s, SafeEnd(s[n..], end - n));
    } else {
      CutInFirst(s, end);
      ValidChar(s);
      assert s[..0] == [] && s[0..] == s;
    }
  }

  /** A boundary of what follows the first character is a boundary of the whole. */
  lemma JoinBoundary(s: Bytes, r: nat)
    requires Valid(s) && s != [] && CharLength(s) + r <= |s|
    requires Valid(s[CharLength(s)..][..r]) && Valid(s[CharLength(s)..][r..])
    ensures Valid(s[..CharLength(s) + r]) && Valid(s[CharLength(s) + r..])
  {
    hide CharLength;
    var n := CharLength(s);
    ValidChar(s);
    ValidConcat(s[..n], s[n..][..r]);
    assert s[..n + r] == s[..n] + s[n..][..r];
    assert s[n + r..] == s[n..][r..];
  }

  lemma ValidChar(s: Bytes)
    requires s != [] && CharLength(s) > 0
    ensures Valid(s[..CharLength(s)])
  {
    var c := s[..CharLength(s)];
    assert |c| == CharLength(s);
    assert c[0] == s[0];
    assert |c| > 1 ==> c[1] == s[1];
    assert |c| > 2 ==> c[2] == s[2];
    assert |c| > 3 ==> c[3] == s[3];
    assert CharLength(c) == |c|;
    assert c[|c|..] == [];
  }

  lemma CutInTail(s: Bytes, end: nat)
    requires Valid(s) && s != [] && CharLength(s) < end < |s|
    ensures SafeEnd(s, end) == CharLength(s) + SafeEnd(s[CharLength(s)..], end - CharLength(s))
  {
    var n := CharLength(s);
    var t := s[n..];
    CharShape(t);
    assert t[0] == s[n];
    SkipBackShift(s, n, end);
    var index := SkipBack(s, end);
    assert t[index - n - 1] == s[index - 1];
  }

  lemma {:induction false} CutInFirst(s: Bytes, end: nat)
    requires Valid(s) && s != [] && 0 < end <= CharLength(s) && end < |s|
    ensures SafeEnd(s, end) == if end == CharLength(s) then end else 0
  {
    CharShape(s);
    SkipBackInFirst(s, end);
  }

  lemma {:induction false} SkipBackInFirst(s: Bytes, end: nat)
    requires s != [] && CharLength(s) > 0 && 0 < end <= CharLength(s)
    ensures SkipBack(s, end) == 1
  {
    CharShape(s);
    if end > 1 {
      SkipBackInFirst(s, end - 1);
    }
  }
}
