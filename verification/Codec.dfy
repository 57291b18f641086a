/** The six-bit buffer codec: three bytes become four printable characters from 0x3c on. */
module Codec {
  type Byte = bv8

  const OFFSET: Byte := 0x3c

  // ---------------------------------------------------------------- the code, group by group

  function S0(a: Byte): Byte { a >> 2 }
  function S1(a: Byte, b: Byte): Byte { ((a & 0x03) << 4) | (b >> 4) }
  function S2(b: Byte, c: Byte): Byte { ((b & 0x0f) << 2) | (c >> 6) }
  function S3(c: Byte): Byte { c & 0x3f }

  /** The character for a sextet. */
  function Char(x: Byte): Byte { x + OFFSET }

  predicate Printable(c: Byte) { OFFSET <= c <= 0x7b }

  /** The encoding: whole groups of three, then a group of one or two bytes padded with zero bits. */
  function Encoded(s: seq<Byte>): seq<Byte> {
    if |s| == 0 then []
    else if |s| == 1 then [Char(S0(s[0])), Char(S1(s[0], 0))]
    else if |s| == 2 then [Char(S0(s[0])), Char(S1(s[0], s[1])), Char(S2(s[1], 0))]
    else [Char(S0(s[0])), Char(S1(s[0], s[1])), Char(S2(s[1], s[2])), Char(S3(s[2]))] + Encoded(s[3..])
  }

  /** A char, signed as in the source, that the decoder accepts. */
  predicate ValidChar(c: Byte) { OFFSET <= c <= 0x7f }

  predicate Valid(s: seq<Byte>) { forall i | 0 <= i < |s| :: ValidChar(s[i]) }

  function Sextet(c: Byte): Byte { (c - OFFSET) & 0x3f }

  function D0(p: Byte, q: Byte): Byte { (Sextet(p) << 2) | (Sextet(q) >> 4) }
  function D1(q: Byte, r: Byte): Byte { (Sextet(q) << 4) | (Sextet(r) >> 2) }
  function D2(r: Byte, t: Byte): Byte { (Sextet(r) << 6) | Sextet(t) }

  /** The decoding: four characters give three bytes, three give two, two give one. */
  function Decoded(s: seq<Byte>): seq<Byte> {
    if |s| <= 1 then []
    else if |s| == 2 then [D0(s[0], s[1])]
    else if |s| == 3 then [D0(s[0], s[1]), D1(s[1], s[2])]
    else [D0(s[0], s[1]), D1(s[1], s[2]), D2(s[2], s[3])] + Decoded(s[4..])
  }

  // ---------------------------------------------------------------- round trip

  lemma {:induction false} GroupRoundTrip(a: Byte, b: Byte, c: Byte)
    ensures D0(Char(S0(a)), Char(S1(a, b))) == a
    ensures D1(Char(S1(a, b)), Char(S2(b, c))) == b
    ensures D2(Char(S2(b, c)), Char(S3(c))) == c
  {
  }

  lemma {:induction false} GroupRange(a: Byte, b: Byte, c: Byte)
    ensures Printable(Char(S0(a))) && Printable(Char(S1(a, b))) && Printable(Char(S2(b, c))) && Printable(Char(S3(c)))
  {
  }

  /** Encoding n bytes gives the ceiling of 4n/3 characters. */
  lemma {:induction false} EncodedLength(s: seq<Byte>)
    ensures |Encoded(s)| == (4 * |s| + 2) / 3
    decreases |s|
  {
    hide Char;
    if |s| > 2 { EncodedLength(s[3..]); }
  }

  /** Every character lies between 0x3c and 0x7b; in particular none is the terminating zero. */
  lemma {:induction false} EncodedPrintable(s: seq<Byte>)
    ensures forall i | 0 <= i < |Encoded(s)| :: Printable(Encoded(s)[i])
    decreases |s|
  {
    hide S0, S1, S2, S3, Char, Printable;
    if |s| == 1 {
      GroupRange(s[0], 0, 0);
    } else if |s| == 2 {
      GroupRange(s[0], s[1], 0);
    } else if |s| > 2 {
      GroupRange(s[0], s[1], s[2]);
      EncodedPrintable(s[3..]);
    }
  }

  /** Decoding an encoding gives back the bytes, whatever they are. */
  lemma {:induction false} RoundTrip(s: seq<Byte>)
    ensures Decoded(Encoded(s)) == s
    decreases |s|
  {
    hide S0, S1, S2, S3, D0, D1, D2, Char;
    if |s| == 1 {
      GroupRoundTrip(s[0], 0, 0);
    } else if |s| == 2 {
      GroupRoundTrip(s[0], s[1], 0);
    } else if |s| > 2 {
      GroupRoundTrip(s[0], s[1], s[2]);
      RoundTrip(s[3..]);
      var e := Encoded(s);
      assert e[4..] == Encoded(s[3..]);
      assert s == [s[0], s[1], s[2]] + s[3..];
    }
  }

  /** Different byte strings have different encodings. */
  lemma {:induction false} EncodedInjective(s: seq<Byte>, t: seq<Byte>)
    requires Encoded(s) == Encoded(t)
    ensures s == t
  {
    RoundTrip(s);
    RoundTrip(t);
  }
}
