/** The base64 alphabet and padding of section 4 of RFC 4648, with its decoder and the round trip. */
module Base64 {
  import opened Utf8

  type sextet = v: int | 0 <= v < 64

  /** The ASCII code of one alphabet character. */
  function Symbol(v: sextet): (c: byte)
    ensures c != PAD
    ensures 0x20 <= c < 0x7F && c != 0x22 && c != 0x5C
  {
    if v < 26 then 65 + v
    else if v < 52 then 97 + (v - 26)
    else if v < 62 then 48 + (v - 52)
    else if v == 62 then 43
    else 47
  }

  const PAD: byte := 61

  /** The inverse of Symbol; characters outside the alphabet give 0. */
  function Value(c: byte): (v: sextet)
    ensures forall w: sextet :: Symbol(w) == c ==> v == w
  {
    if 65 <= c <= 90 then c - 65
    else if 97 <= c <= 122 then c - 97 + 26
    else if 48 <= c <= 57 then c - 48 + 52
    else if c == 43 then 62
    else if c == 47 then 63
    else 0
  }

  /** The four symbols that stand for three bytes. */
  function Quad(x: byte, y: byte, z: byte): Bytes {
    [Symbol(x / 4), Symbol(x % 4 * 16 + y / 16), Symbol(y % 16 * 4 + z / 64), Symbol(z % 64)]
  }

  function Encode(s: Bytes): (r: Bytes) {
    if s == [] then []
    else if |s| == 1 then Quad(s[0], 0, 0)[..2] + [PAD, PAD]
    else if |s| == 2 then Quad(s[0], s[1], 0)[..3] + [PAD]
    else Quad(s[0], s[1], s[2]) + Encode(s[3..])
  }

  /** Encoded text has the padded length and needs no JSON escaping. */
  lemma {:induction false} EncodeShape(s: Bytes)
    ensures |Encode(s)| == 4 * ((|s| + 2) / 3)
    ensures forall i :: 0 <= i < |Encode(s)| ==>
      0x20 <= Encode(s)[i] < 0x7F && Encode(s)[i] != 0x22 && Encode(s)[i] != 0x5C
  {
    if |s| >= 3 {
      EncodeShape(s[3..]);
      assert Encode(s) == Quad(s[0], s[1], s[2]) + Encode(s[3..]);
    }
  }

  function Decode(r: Bytes): Bytes {
    if |r| < 4 then []
    else
      var a, b := Value(r[0]), Value(r[1]);
      var first: byte := a * 4 + b / 16;
      if r[2] == PAD then [first]
      else
        var c := Value(r[2]);
        var second: byte := b % 16 * 16 + c / 4;
        if r[3] == PAD then [first, second]
        else [first, second, c % 4 * 64 + Value(r[3])] + Decode(r[4..])
  }

  /** The value decoded from a symbol is the value that was written. */
  lemma SymbolValue(v: sextet)
    ensures Value(Symbol(v)) == v
  {
  }

  /** Three bytes are rebuilt from the four six-bit values cut from them. */
  lemma Rebuild(x: byte, y: byte, z: byte)
    ensures x / 4 * 4 + (x % 4 * 16 + y / 16) / 16 == x
    ensures (x % 4 * 16 + y / 16) % 16 * 16 + (y % 16 * 4 + z / 64) / 4 == y
    ensures (y % 16 * 4 + z / 64) % 4 * 64 + z % 64 == z
  {
  }

  /** Decoding an encoding gives back exactly the bytes that were encoded. */
  lemma {:induction false} RoundTrip(s: Bytes)
    ensures Decode(Encode(s)) == s
  {
    hide Quad, Value, Symbol;
    if |s| == 0 {
    } else if |s| == 1 {
      RoundTripOne(s[0]);
      assert s == [s[0]];
    } else if |s| == 2 {
      RoundTripTwo(s[0], s[1]);
      assert s == [s[0], s[1]];
    } else {
      RoundTrip(s[3..]);
      RoundTripStep(s[0], s[1], s[2], s[3..]);
      assert s == [s[0], s[1], s[2]] + s[3..];
    }
  }

  lemma RoundTripStep(x: byte, y: byte, z: byte, rest: Bytes)
    requires Decode(Encode(rest)) == rest
    ensures Decode(Encode([x, y, z] + rest)) == [x, y, z] + rest
  {
    var s := [x, y, z] + rest;
    assert s[3..] == rest;
    RoundTripQuad(x, y, z, Encode(rest));
  }

  lemma RoundTripOne(x: byte)
    ensures Decode(Quad(x, 0, 0)[..2] + [PAD, PAD]) == [x]
  {
    Rebuild(x, 0, 0);
    SymbolValue(x / 4);
    SymbolValue(x % 4 * 16);
    assert Quad(x, 0, 0)[..2] + [PAD, PAD] == [Symbol(x / 4), Symbol(x % 4 * 16), PAD, PAD];
  }

  lemma RoundTripTwo(x: byte, y: byte)
    ensures Decode(Quad(x, y, 0)[..3] + [PAD]) == [x, y]
  {
    Rebuild(x, y, 0);
    SymbolValue(x / 4);
    SymbolValue(x % 4 * 16 + y / 16);
    SymbolValue(y % 16 * 4);
    assert Quad(x, y, 0)[..3] + [PAD] == [Symbol(x / 4), Symbol(x % 4 * 16 + y / 16), Symbol(y % 16 * 4), PAD];
  }

  lemma RoundTripQuad(x: byte, y: byte, z: byte, rest: Bytes)
    ensures Decode(Quad(x, y, z) + rest) == [x, y, z] + Decode(rest)
  {
    var r := Quad(x, y, z) + rest;
    Rebuild(x, y, z);
    SymbolValue(x / 4);
    SymbolValue(x % 4 * 16 + y / 16);
    SymbolValue(y % 16 * 4 + z / 64);
    SymbolValue(z % 64);
    assert r[4..] == rest;
  }
}
