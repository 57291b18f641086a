/** What the six-bit code means, bit by bit. */
module CodecBits {
  import opened Codec

  /** The bit of `x` under a mask. */
  predicate Bit(x: Byte, mask: Byte) { x & mask != 0 }

  /** The eight bits of a byte, the highest first. */
  function ByteBits(x: Byte): seq<bool> {
    [Bit(x, 0x80), Bit(x, 0x40), Bit(x, 0x20), Bit(x, 0x10), Bit(x, 0x08), Bit(x, 0x04), Bit(x, 0x02), Bit(x, 0x01)]
  }

  /** What a character stands for: its distance from the first of the alphabet. */
  function Value(c: Byte): Byte { c - 0x3c }

  /** Six bits of it. */
  function CharBits(c: Byte): seq<bool> {
    var x := Value(c);
    [Bit(x, 0x20), Bit(x, 0x10), Bit(x, 0x08), Bit(x, 0x04), Bit(x, 0x02), Bit(x, 0x01)]
  }

  function Bits(s: seq<Byte>): seq<bool> { if s == [] then [] else ByteBits(s[0]) + Bits(s[1..]) }

  function TextBits(t: seq<Byte>): seq<bool> { if t == [] then [] else CharBits(t[0]) + TextBits(t[1..]) }

  /** The zeros that fill up the last character. */
  function Filling(n: nat): seq<bool> {
    if n % 3 == 1 then [false, false, false, false] else if n % 3 == 2 then [false, false] else []
  }

  lemma {:induction false} BitsCons(a: Byte, s: seq<Byte>)
    ensures Bits([a] + s) == ByteBits(a) + Bits(s)
  {
    hide ByteBits;
    assert ([a] + s)[1..] == s;
  }

  lemma {:induction false} TextCons(c: Byte, t: seq<Byte>)
    ensures TextBits([c] + t) == CharBits(c) + TextBits(t)
  {
    hide CharBits;
    assert ([c] + t)[1..] == t;
  }

  lemma {:induction false} BitsThree(a: Byte, b: Byte, c: Byte, s: seq<Byte>)
    ensures Bits([a, b, c] + s) == ByteBits(a) + ByteBits(b) + ByteBits(c) + Bits(s)
  {
    hide ByteBits, Bits;
    BitsCons(c, s);
    BitsCons(b, [c] + s);
    BitsCons(a, [b] + ([c] + s));
    assert [a, b, c] + s == [a] + ([b] + ([c] + s));
  }

  lemma {:induction false} TextFour(p: Byte, q: Byte, r: Byte, t: Byte, s: seq<Byte>)
    ensures TextBits([p, q, r, t] + s) == CharBits(p) + CharBits(q) + CharBits(r) + CharBits(t) + TextBits(s)
  {
    hide CharBits, TextBits;
    TextCons(t, s);
    TextCons(r, [t] + s);
    TextCons(q, [r] + ([t] + s));
    TextCons(p, [q] + ([r] + ([t] + s)));
    assert [p, q, r, t] + s == [p] + ([q] + ([r] + ([t] + s)));
  }

  lemma {:induction false} BitsFew(a: Byte, b: Byte)
    ensures Bits([a]) == ByteBits(a) && Bits([a, b]) == ByteBits(a) + ByteBits(b)
  {
    hide ByteBits;
    BitsCons(a, []);
    BitsCons(b, []);
    BitsCons(a, [b] + []);
    assert [a] + [] == [a] && [b] + [] == [b] && [a] + ([b] + []) == [a, b];
  }

  lemma {:induction false} TextFew(p: Byte, q: Byte, r: Byte)
    ensures TextBits([p]) == CharBits(p) && TextBits([p, q]) == CharBits(p) + CharBits(q)
    ensures TextBits([p, q, r]) == CharBits(p) + CharBits(q) + CharBits(r)
  {
    hide CharBits;
    TextCons(p, []);
    TextCons(q, []);
    TextCons(r, []);
    TextCons(p, [q] + []);
    TextCons(q, [r] + []);
    TextCons(p, [q] + ([r] + []));
    assert [p] + [] == [p] && [q] + [] == [q] && [r] + [] == [r];
    assert [p] + ([q] + []) == [p, q] && [p] + ([q] + ([r] + [])) == [p, q, r];
  }

  // ---------------------------------------------------------------- one group

  lemma {:induction false} Bits0(a: Byte)
    ensures var x := Value(Char(S0(a)));
      && Bit(x, 0x20) == Bit(a, 0x80) && Bit(x, 0x10) == Bit(a, 0x40) && Bit(x, 0x08) == Bit(a, 0x20)
      && Bit(x, 0x04) == Bit(a, 0x10) && Bit(x, 0x02) == Bit(a, 0x08) && Bit(x, 0x01) == Bit(a, 0x04)
  {
  }

  lemma {:induction false} Bits1(a: Byte, b: Byte)
    ensures var x := Value(Char(S1(a, b)));
      && Bit(x, 0x20) == Bit(a, 0x02) && Bit(x, 0x10) == Bit(a, 0x01) && Bit(x, 0x08) == Bit(b, 0x80)
      && Bit(x, 0x04) == Bit(b, 0x40) && Bit(x, 0x02) == Bit(b, 0x20) && Bit(x, 0x01) == Bit(b, 0x10)
  {
  }

  lemma {:induction false} Bits2(b: Byte, c: Byte)
    ensures var x := Value(Char(S2(b, c)));
      && Bit(x, 0x20) == Bit(b, 0x08) && Bit(x, 0x10) == Bit(b, 0x04) && Bit(x, 0x08) == Bit(b, 0x02)
      && Bit(x, 0x04) == Bit(b, 0x01) && Bit(x, 0x02) == Bit(c, 0x80) && Bit(x, 0x01) == Bit(c, 0x40)
  {
  }

  lemma {:induction false} Bits3(c: Byte)
    ensures var x := Value(Char(S3(c)));
      && Bit(x, 0x20) == Bit(c, 0x20) && Bit(x, 0x10) == Bit(c, 0x10) && Bit(x, 0x08) == Bit(c, 0x08)
      && Bit(x, 0x04) == Bit(c, 0x04) && Bit(x, 0x02) == Bit(c, 0x02) && Bit(x, 0x01) == Bit(c, 0x01)
  {
  }

  lemma {:induction false} ByteParts(x: Byte)
    ensures ByteBits(x)[..6] == [Bit(x, 0x80), Bit(x, 0x40), Bit(x, 0x20), Bit(x, 0x10), Bit(x, 0x08), Bit(x, 0x04)]
    ensures ByteBits(x)[6..] == [Bit(x, 0x02), Bit(x, 0x01)] && ByteBits(x)[..2] == [Bit(x, 0x80), Bit(x, 0x40)]
    ensures ByteBits(x)[..4] == [Bit(x, 0x80), Bit(x, 0x40), Bit(x, 0x20), Bit(x, 0x10)]
    ensures ByteBits(x)[4..] == [Bit(x, 0x08), Bit(x, 0x04), Bit(x, 0x02), Bit(x, 0x01)]
    ensures ByteBits(x)[2..] == [Bit(x, 0x20), Bit(x, 0x10), Bit(x, 0x08), Bit(x, 0x04), Bit(x, 0x02), Bit(x, 0x01)]
  {
    hide Bit;
  }

  /** The parts of a character that the bytes take. */
  lemma {:induction false} CharParts(c: Byte)
    ensures var x := Value(c);
      && CharBits(c)[..2] == [Bit(x, 0x20), Bit(x, 0x10)]
      && CharBits(c)[2..] == [Bit(x, 0x08), Bit(x, 0x04), Bit(x, 0x02), Bit(x, 0x01)]
      && CharBits(c)[..4] == [Bit(x, 0x20), Bit(x, 0x10), Bit(x, 0x08), Bit(x, 0x04)]
      && CharBits(c)[4..] == [Bit(x, 0x02), Bit(x, 0x01)]
  {
    hide Bit, Value;
  }

  /** A sequence is its two parts. */
  lemma {:induction false} Cuts(s: seq<bool>, k: nat)
    requires k <= |s|
    ensures s == s[..k] + s[k..]
  {
  }

  /** The four characters cut the three bytes at bits six, twelve and eighteen. */
  lemma {:induction false} Cut0(a: Byte)
    ensures CharBits(Char(S0(a))) == ByteBits(a)[..6]
  {
    hide S0, Char, Bit, Value, ByteBits;
    Bits0(a);
    ByteParts(a);
  }

  lemma {:induction false} Cut1(a: Byte, b: Byte)
    ensures CharBits(Char(S1(a, b))) == ByteBits(a)[6..] + ByteBits(b)[..4]
  {
    hide S1, Char, Bit, Value, ByteBits;
    Bits1(a, b);
    ByteParts(a);
    ByteParts(b);
    CharParts(Char(S1(a, b)));
    Cuts(CharBits(Char(S1(a, b))), 2);
  }

  lemma {:induction false} Cut2(b: Byte, c: Byte)
    ensures CharBits(Char(S2(b, c))) == ByteBits(b)[4..] + ByteBits(c)[..2]
  {
    hide S2, Char, Bit, Value, ByteBits;
    Bits2(b, c);
    ByteParts(b);
    ByteParts(c);
    CharParts(Char(S2(b, c)));
    Cuts(CharBits(Char(S2(b, c))), 4);
  }

  lemma {:induction false} Cut3(c: Byte)
    ensures CharBits(Char(S3(c))) == ByteBits(c)[2..]
  {
    hide S3, Char, Bit, Value, ByteBits;
    Bits3(c);
    ByteParts(c);
  }

  lemma {:induction false} Glue(x: seq<bool>, y: seq<bool>, z: seq<bool>)
    requires |x| == |y| == |z| == 8
    ensures x[..6] + (x[6..] + y[..4]) + (y[4..] + z[..2]) + z[2..] == x + y + z
    ensures x[..6] + (x[6..] + y[..4]) == x + y[..4]
    ensures x[..6] + (x[6..] + y[..4]) + (y[4..] + z[..2]) == x + y + z[..2]
  {
  }

  lemma {:induction false} GroupBits(a: Byte, b: Byte, c: Byte)
    ensures CharBits(Char(S0(a))) + CharBits(Char(S1(a, b))) + CharBits(Char(S2(b, c))) + CharBits(Char(S3(c)))
      == ByteBits(a) + ByteBits(b) + ByteBits(c)
    ensures CharBits(Char(S0(a))) + CharBits(Char(S1(a, b))) == ByteBits(a) + ByteBits(b)[..4]
    ensures CharBits(Char(S0(a))) + CharBits(Char(S1(a, b))) + CharBits(Char(S2(b, c)))
      == ByteBits(a) + ByteBits(b) + ByteBits(c)[..2]
  {
    hide S0, S1, S2, S3, Char, CharBits;
    Cut0(a);
    Cut1(a, b);
    Cut2(b, c);
    Cut3(c);
    Glue(ByteBits(a), ByteBits(b), ByteBits(c));
  }

  lemma {:induction false} NoBits()
    ensures ByteBits(0)[..4] == [false, false, false, false] && ByteBits(0)[..2] == [false, false]
  {
  }

  lemma {:induction false} ShortBits(a: Byte, b: Byte)
    ensures CharBits(Char(S0(a))) + CharBits(Char(S1(a, 0))) == ByteBits(a) + Filling(1)
    ensures CharBits(Char(S0(a))) + CharBits(Char(S1(a, b))) + CharBits(Char(S2(b, 0)))
      == ByteBits(a) + ByteBits(b) + Filling(2)
  {
    hide S0, S1, S2, Char, CharBits, Bit;
    NoBits();
    GroupBits(a, 0, 0);
    GroupBits(a, b, 0);
  }

  // ---------------------------------------------------------------- the whole code

  /** The text, read six bits a character, holds the bits of the bytes in their order, filled up with zeros to whole
      characters. */
  lemma {:induction false} EncodedBits(s: seq<Byte>)
    ensures TextBits(Encoded(s)) == Bits(s) + Filling(|s|)
    decreases |s|
  {
    hide S0, S1, S2, S3, Char, ByteBits, CharBits, TextBits, Bits;
    if |s| == 0 {
      Empty();
    } else if |s| == 1 {
      assert s == [s[0]];
      ShortBits(s[0], 0);
      BitsFew(s[0], 0);
      TextFew(Char(S0(s[0])), Char(S1(s[0], 0)), 0);
    } else if |s| == 2 {
      assert s == [s[0], s[1]];
      ShortBits(s[0], s[1]);
      BitsFew(s[0], s[1]);
      TextFew(Char(S0(s[0])), Char(S1(s[0], s[1])), Char(S2(s[1], 0)));
    } else {
      var a, b, c, rest := s[0], s[1], s[2], s[3..];
      assert s == [a, b, c] + rest;
      EncodedBits(rest);
      GroupBits(a, b, c);
      BitsThree(a, b, c, rest);
      TextFour(Char(S0(a)), Char(S1(a, b)), Char(S2(b, c)), Char(S3(c)), Encoded(rest));
      SameFilling(|s|);
    }
  }

  lemma {:induction false} Empty()
    ensures TextBits([]) == [] && Bits([]) == [] && Filling(0) == []
  {
  }

  lemma {:induction false} SameFilling(n: nat)
    requires n >= 3
    ensures Filling(n) == Filling(n - 3)
  {
  }

  // ---------------------------------------------------------------- decoding

  lemma {:induction false} Byte0(p: Byte, q: Byte)
    ensures var x, u, v := D0(p, q), Value(p), Value(q);
      && Bit(x, 0x80) == Bit(u, 0x20) && Bit(x, 0x40) == Bit(u, 0x10) && Bit(x, 0x20) == Bit(u, 0x08)
      && Bit(x, 0x10) == Bit(u, 0x04) && Bit(x, 0x08) == Bit(u, 0x02) && Bit(x, 0x04) == Bit(u, 0x01)
      && Bit(x, 0x02) == Bit(v, 0x20) && Bit(x, 0x01) == Bit(v, 0x10)
  {
  }

  lemma {:induction false} Byte1(q: Byte, r: Byte)
    ensures var x, u, v := D1(q, r), Value(q), Value(r);
      && Bit(x, 0x80) == Bit(u, 0x08) && Bit(x, 0x40) == Bit(u, 0x04) && Bit(x, 0x20) == Bit(u, 0x02)
      && Bit(x, 0x10) == Bit(u, 0x01) && Bit(x, 0x08) == Bit(v, 0x20) && Bit(x, 0x04) == Bit(v, 0x10)
      && Bit(x, 0x02) == Bit(v, 0x08) && Bit(x, 0x01) == Bit(v, 0x04)
  {
  }

  lemma {:induction false} Byte2(r: Byte, t: Byte)
    ensures var x, u, v := D2(r, t), Value(r), Value(t);
      && Bit(x, 0x80) == Bit(u, 0x02) && Bit(x, 0x40) == Bit(u, 0x01) && Bit(x, 0x20) == Bit(v, 0x20)
      && Bit(x, 0x10) == Bit(v, 0x10) && Bit(x, 0x08) == Bit(v, 0x08) && Bit(x, 0x04) == Bit(v, 0x04)
      && Bit(x, 0x02) == Bit(v, 0x02) && Bit(x, 0x01) == Bit(v, 0x01)
  {
  }

  lemma {:induction false} Join0(p: Byte, q: Byte)
    ensures ByteBits(D0(p, q)) == CharBits(p) + CharBits(q)[..2]
  {
    hide D0, Bit, Value;
    Byte0(p, q);
    ByteParts(D0(p, q));
    CharParts(q);
    Cuts(ByteBits(D0(p, q)), 6);
  }

  lemma {:induction false} Join1(q: Byte, r: Byte)
    ensures ByteBits(D1(q, r)) == CharBits(q)[2..] + CharBits(r)[..4]
  {
    hide D1, Bit, Value;
    Byte1(q, r);
    ByteParts(D1(q, r));
    CharParts(q);
    CharParts(r);
    Cuts(ByteBits(D1(q, r)), 4);
  }

  lemma {:induction false} Join2(r: Byte, t: Byte)
    ensures ByteBits(D2(r, t)) == CharBits(r)[4..] + CharBits(t)
  {
    hide D2, Bit, Value;
    Byte2(r, t);
    ByteParts(D2(r, t));
    CharParts(r);
    Cuts(ByteBits(D2(r, t)), 2);
  }

  lemma {:induction false} Fit(x: seq<bool>, y: seq<bool>, z: seq<bool>, w: seq<bool>)
    requires |x| == |y| == |z| == |w| == 6
    ensures (x + y[..2]) + (y[2..] + z[..4]) + (z[4..] + w) == x + y + z + w
    ensures x + y[..2] == (x + y)[..8] && (x + y[..2]) + (y[2..] + z[..4]) == (x + y + z)[..16]
  {
  }

  lemma {:induction false} QuartetBits(p: Byte, q: Byte, r: Byte, t: Byte)
    ensures ByteBits(D0(p, q)) + ByteBits(D1(q, r)) + ByteBits(D2(r, t))
      == CharBits(p) + CharBits(q) + CharBits(r) + CharBits(t)
    ensures ByteBits(D0(p, q)) == (CharBits(p) + CharBits(q))[..8]
    ensures ByteBits(D0(p, q)) + ByteBits(D1(q, r)) == (CharBits(p) + CharBits(q) + CharBits(r))[..16]
  {
    hide D0, D1, D2, ByteBits;
    Join0(p, q);
    Join1(q, r);
    Join2(r, t);
    Fit(CharBits(p), CharBits(q), CharBits(r), CharBits(t));
  }

  lemma {:induction false} TextCount(t: seq<Byte>)
    ensures |TextBits(t)| == 6 * |t|
  {
    if t != [] { TextCount(t[1..]); }
  }

  /** The bytes decoded from any text, canonical or not, are as many as its bits fill, and hold those bits in order. */
  lemma {:induction false} DecodedBits(t: seq<Byte>)
    ensures |Decoded(t)| == 3 * |t| / 4 && |TextBits(t)| == 6 * |t|
    ensures Bits(Decoded(t)) == TextBits(t)[..8 * (3 * |t| / 4)]
    decreases |t|
  {
    hide D0, D1, D2, ByteBits, CharBits, TextBits, Bits;
    TextCount(t);
    Empty();
    if |t| <= 1 {
    } else if |t| == 2 {
      assert t == [t[0], t[1]];
      QuartetBits(t[0], t[1], 0, 0);
      BitsFew(D0(t[0], t[1]), 0);
      TextFew(t[0], t[1], 0);
    } else if |t| == 3 {
      assert t == [t[0], t[1], t[2]];
      QuartetBits(t[0], t[1], t[2], 0);
      BitsFew(D0(t[0], t[1]), D1(t[1], t[2]));
      TextFew(t[0], t[1], t[2]);
    } else {
      var p, q, r, u, rest := t[0], t[1], t[2], t[3], t[4..];
      assert t == [p, q, r, u] + rest;
      DecodedBits(rest);
      QuartetBits(p, q, r, u);
      BitsThree(D0(p, q), D1(q, r), D2(r, u), Decoded(rest));
      TextFour(p, q, r, u, rest);
      FourChars(p, q, r, u);
      Prefix(CharBits(p) + CharBits(q) + CharBits(r) + CharBits(u), TextBits(rest), 8 * (3 * |rest| / 4));
    }
  }

  lemma {:induction false} Prefix(s: seq<bool>, t: seq<bool>, n: nat)
    requires n <= |t|
    ensures (s + t)[..|s| + n] == s + t[..n]
  {
  }

  lemma {:induction false} FourChars(p: Byte, q: Byte, r: Byte, t: Byte)
    ensures |CharBits(p) + CharBits(q) + CharBits(r) + CharBits(t)| == 24
  {
  }
}
