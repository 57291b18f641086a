/** The codec's loops over buffers. The source of the decoder ends with a zero byte. */
module CodecBuffer {
  import opened Codec

  // ---------------------------------------------------------------- one byte more

  /** What the last character of an unfinished group still carries. */
  function Carry(s: seq<Byte>): Byte {
    if |s| % 3 == 1 then S1(s[|s| - 1], 0) else if |s| % 3 == 2 then S2(s[|s| - 1], 0) else 0
  }

  /** The characters that are final before the last, unfinished one is flushed. */
  function Final(s: seq<Byte>): seq<Byte> {
    if |s| % 3 == 0 || |Encoded(s)| == 0 then Encoded(s) else Encoded(s)[..|Encoded(s)| - 1]
  }

  /** What one more byte adds to the final characters: the carry is completed by the byte's high bits,
      and in a third byte the low six bits follow at once. */
  function Added(s: seq<Byte>, x: Byte): seq<Byte> {
    if |s| % 3 == 0 then [Char(S0(x))]
    else if |s| % 3 == 1 then [Char(S1(s[|s| - 1], x))]
    else [Char(S2(s[|s| - 1], x)), Char(S3(x))]
  }

  lemma {:induction false} SmallStep(s: seq<Byte>, x: Byte)
    requires |s| <= 2
    ensures Final(s + [x]) == Final(s) + Added(s, x)
    ensures Encoded(s) == if |s| == 0 then Final(s) else Final(s) + [Char(Carry(s))]
  {
    hide S0, S1, S2, S3, Char;
    if |s| == 2 {
      var t := s + [x];
      assert t[3..] == [];
      assert Encoded(t) == [Char(S0(s[0])), Char(S1(s[0], s[1])), Char(S2(s[1], x)), Char(S3(x))];
    }
  }

  lemma {:induction false} PeelEncoded(s: seq<Byte>)
    requires |s| > 2
    ensures Encoded(s) == Encoded(s[..3]) + Encoded(s[3..])
  {
    hide S0, S1, S2, S3, Char;
    var g := s[..3];
    assert g[3..] == [];
    assert Encoded(g) == [Char(S0(s[0])), Char(S1(s[0], s[1])), Char(S2(s[1], s[2])), Char(S3(s[2]))];
  }

  lemma {:induction false} Peel(s: seq<Byte>)
    requires |s| > 2
    ensures Encoded(s) == Encoded(s[..3]) + Encoded(s[3..])
    ensures Final(s) == Encoded(s[..3]) + Final(s[3..])
    ensures |s| > 3 ==> Carry(s) == Carry(s[3..])
  {
    hide Encoded, S1, S2, Char;
    PeelEncoded(s);
    EncodedLength(s[3..]);
    EncodedLength(s);
  }

  lemma {:induction false} EncodedStep(s: seq<Byte>, x: Byte)
    ensures Encoded(s) == if |s| % 3 == 0 then Final(s) else Final(s) + [Char(Carry(s))]
    ensures Final(s + [x]) == Final(s) + Added(s, x)
    decreases |s|
  {
    hide Encoded, Final, Carry, S0, S1, S2, S3, Char;
    if |s| <= 2 {
      SmallStep(s, x);
    } else {
      var t := s + [x];
      EncodedStep(s[3..], x);
      assert t[3..] == s[3..] + [x] && t[..3] == s[..3];
      Peel(s);
      Peel(t);
      assert Added(s, x) == Added(s[3..], x);
    }
  }

  /** The expressions of the encoder loop, in the source's int arithmetic. */
  function Made(rest: Byte, x: Byte, count: nat): Byte
    requires count <= 4
  {
    ((rest as bv32 | (x as bv32 >> (2 + count))) & 0x3f) as bv8
  }

  function Remainder(x: Byte, count: nat): Byte
    requires count <= 4
  {
    (((x as bv32 << (8 - (2 + count))) >> 2) & 0x3f) as bv8
  }

  lemma {:induction false} MadeIs(a: Byte, x: Byte)
    ensures Made(0, x, 0) == S0(x) && Remainder(x, 0) == S1(x, 0)
    ensures Made(S1(a, 0), x, 2) == S1(a, x) && Remainder(x, 2) == S2(x, 0)
    ensures Made(S2(a, 0), x, 4) == S2(a, x) && Remainder(x, 4) == S3(x)
  {
  }

  lemma {:induction false} FinalLength(s: seq<Byte>)
    ensures |Final(s)| == 4 * |s| / 3
  {
    hide Encoded;
    EncodedLength(s);
    Groups(|s|, 0);
  }

  /** What the encoder loop writes for one more byte: with room for one character only, the second character
      of a third byte is left out. */
  function Fitted(s: seq<Byte>, x: Byte, room: nat): seq<Byte>
    requires room > 0
  {
    if |s| % 3 == 2 && room == 1 then [Char(S2(s[|s| - 1], x))] else Added(s, x)
  }

  /** The body of the encoder loop after its test: `s` are the bytes already taken. */
  method EncodeByte(x: Byte, dest: array<Byte>, destLen: nat, pos: nat, restCount: nat, rest: Byte, ghost s: seq<Byte>)
    returns (pos': nat, restCount': nat, rest': Byte)
    requires pos < destLen && pos + |Fitted(s, x, destLen - pos)| <= dest.Length
    requires restCount == 2 * (|s| % 3) && rest == Carry(s)
    modifies dest
    ensures pos' == pos + |Fitted(s, x, destLen - pos)| && restCount' == 2 * ((|s| + 1) % 3) && rest' == Carry(s + [x])
    ensures dest[..pos'] == old(dest[..pos]) + Fitted(s, x, destLen - pos)
    ensures dest[pos'..] == old(dest[..])[pos'..]
  {
    hide S0, S1, S2, S3, Char, Made, Remainder;
    MadeIs(if |s| > 0 then s[|s| - 1] else 0, x);
    var made := Made(rest, x, restCount);
    rest' := Remainder(x, restCount);
    restCount' := restCount + 2;
    if restCount' < 6 {
      dest[pos] := Char(made);
      pos' := pos + 1;
    } else {
      if pos < destLen - 1 {
        dest[pos] := Char(made);
        dest[pos + 1] := Char(rest');
        pos' := pos + 2;
      } else {
        dest[pos] := Char(made);
        pos' := pos + 1;
      }
      restCount', rest' := 0, 0;
    }
  }

  /** How many bytes the encoder takes in, given the room its caller states. */
  function Taken(srcLen: nat, destLen: nat): nat {
    if srcLen <= (3 * destLen + 3) / 4 then srcLen else (3 * destLen + 3) / 4
  }

  /** How many characters it writes: all for the bytes taken, the unfinished last one included even if that is
      one more than the room stated; but only the first of the two that a third byte completes, if there is no
      room for both. */
  function Written(srcLen: nat, destLen: nat): nat {
    var full := (4 * Taken(srcLen, destLen) + 2) / 3;
    if destLen % 4 == 3 && full > destLen then destLen else full
  }

  /** With room for the whole encoding everything is taken and written. */
  lemma {:induction false} RoomForAll(srcLen: nat, destLen: nat)
    requires (4 * srcLen + 2) / 3 <= destLen
    ensures Taken(srcLen, destLen) == srcLen && Written(srcLen, destLen) == (4 * srcLen + 2) / 3
  {
  }

  /** After `i` bytes and `pos` characters the loop is where the counts say it is. */
  predicate Progress(i: nat, pos: nat, srcLen: nat, destLen: nat) {
    && i <= Taken(srcLen, destLen) && pos <= destLen && pos <= Written(srcLen, destLen)
    && (pos == 4 * i / 3 || (i % 3 == 0 && pos == destLen == 4 * i / 3 - 1))
  }

  /** What the loop adds to the characters for byte `i`. */
  function More(i: nat, pos: nat, destLen: nat): nat { if i % 3 == 2 && pos + 1 < destLen then 2 else 1 }

  /** Characters come in groups of four, bytes in groups of three. */
  lemma {:induction false} Groups(i: nat, d: nat)
    ensures 4 * i / 3 == 4 * (i / 3) + i % 3
    ensures (4 * i + 2) / 3 == 4 * (i / 3) + (if i % 3 == 0 then 0 else i % 3 + 1)
    ensures (3 * d + 3) / 4 == 3 * (d / 4) + d % 4
  {
  }

  lemma {:induction false} OneMore(i: nat, pos: nat, srcLen: nat, destLen: nat)
    requires Progress(i, pos, srcLen, destLen) && i < srcLen && pos < destLen
    ensures pos == 4 * i / 3
    ensures pos + More(i, pos, destLen) <= Written(srcLen, destLen)
    ensures Progress(i + 1, pos + More(i, pos, destLen), srcLen, destLen)
  {
    Groups(i, destLen);
    Groups(i + 1, destLen);
    Groups(Taken(srcLen, destLen), destLen);
    var k, r, d, q := i / 3, i % 3, destLen / 4, destLen % 4;
    assert i == 3 * k + r && destLen == 4 * d + q && pos == 4 * k + r;
    assert k < d || (k == d && r < q);
    assert i + 1 <= Taken(srcLen, destLen);
    FullMonotone(i + 1, Taken(srcLen, destLen));
  }

  lemma {:induction false} FullMonotone(i: nat, j: nat)
    requires i <= j
    ensures (4 * i + 2) / 3 <= (4 * j + 2) / 3
  {
  }

  lemma {:induction false} AllDone(i: nat, pos: nat, srcLen: nat, destLen: nat)
    requires Progress(i, pos, srcLen, destLen) && i <= srcLen && (i == srcLen || pos >= destLen)
    ensures i == Taken(srcLen, destLen)
    ensures Written(srcLen, destLen) == pos + if i % 3 == 0 then 0 else 1
    ensures i % 3 != 0 ==> pos == 4 * i / 3
  {
    Groups(i, destLen);
    Groups(Taken(srcLen, destLen), destLen);
  }

  /** What is written for one more byte continues what is final. */
  lemma {:induction false} FittedIs(s: seq<Byte>, x: Byte, pos: nat, destLen: nat)
    requires pos < destLen && pos == |Final(s)|
    ensures |Fitted(s, x, destLen - pos)| == More(|s|, pos, destLen)
    ensures var pos' := pos + More(|s|, pos, destLen);
      pos' <= |Final(s + [x])| && Final(s) + Fitted(s, x, destLen - pos) == Final(s + [x])[..pos']
  {
    hide Final, Encoded, S0, S1, S2, S3, Char;
    EncodedStep(s, x);
    var f := Fitted(s, x, destLen - pos);
    assert f <= Added(s, x);
    assert (Final(s) + Added(s, x))[..pos + |f|] == Final(s) + f;
  }

  /** The loop of fnEncode6BitBufA; `i` bytes are taken when it ends. */
  method EncodeLoop(src: array<Byte>, dest: array<Byte>, srcLen: nat, destLen: nat)
    returns (i: nat, pos: nat, restCount: nat, rest: Byte)
    requires src != dest && srcLen <= src.Length && Written(srcLen, destLen) <= dest.Length
    modifies dest
    ensures i <= srcLen && Progress(i, pos, srcLen, destLen) && (i == srcLen || pos >= destLen) && pos <= dest.Length
    ensures restCount == 2 * (i % 3) && rest == Carry(src[..i])
    ensures pos <= |Final(src[..i])| && dest[..pos] == Final(src[..i])[..pos]
    ensures dest[pos..] == old(dest[..])[pos..]
  {
    hide Encoded, Final, Carry, Added, Char, Fitted, Taken, Written, Progress, More;
    i, pos, restCount, rest := 0, 0, 0, 0;
    CarryNone();
    assert src[..0] == [];
    Started(srcLen, destLen);
    while i < srcLen
      invariant i <= srcLen && Progress(i, pos, srcLen, destLen) && pos <= dest.Length
      invariant restCount == 2 * (i % 3) && rest == Carry(src[..i])
      invariant pos <= |Final(src[..i])| && dest[..pos] == Final(src[..i])[..pos]
      invariant dest[pos..] == old(dest[..])[pos..]
    {
      if pos >= destLen { break; }
      var x := src[i];
      OneMore(i, pos, srcLen, destLen);
      FinalLength(src[..i]);
      FittedIs(src[..i], x, pos, destLen);
      assert src[..i + 1] == src[..i] + [x];
      assert Final(src[..i])[..pos] == Final(src[..i]);
      ghost var before, was := dest[..], pos;
      pos, restCount, rest := EncodeByte(x, dest, destLen, pos, restCount, rest, src[..i]);
      assert dest[pos..] == before[pos..] == old(dest[..])[pos..] by {
        assert before[pos..] == before[was..][pos - was..];
      }
      i := i + 1;
    }
  }

  /** What the flush after the loop completes. */
  lemma {:induction false} Flushed(s: seq<Byte>, pos: nat)
    requires pos <= |Final(s)| && (|s| % 3 != 0 ==> pos == 4 * |s| / 3)
    ensures |s| % 3 == 0 ==> Final(s)[..pos] == Encoded(s)[..pos]
    ensures |s| % 3 != 0 ==> Final(s)[..pos] + [Char(Carry(s))] == Encoded(s) && |Encoded(s)| == pos + 1
  {
    hide Encoded, Final, Carry, Char;
    EncodedStep(s, 0);
    FinalLength(s);
    if |s| % 3 != 0 { assert Final(s)[..pos] == Final(s); }
  }

  /** fnEncode6BitBufA: writes the encoding of the bytes it takes in, as far as the room stated allows. */
  method Encode(src: array<Byte>, dest: array<Byte>, srcLen: nat, destLen: nat) returns (n: nat)
    requires src != dest && srcLen <= src.Length && Written(srcLen, destLen) <= dest.Length
    modifies dest
    ensures n == Written(srcLen, destLen)
    ensures n <= |Encoded(src[..Taken(srcLen, destLen)])|
    ensures dest[..n] == Encoded(src[..Taken(srcLen, destLen)])[..n]
    ensures dest[n..] == old(dest[..])[n..]
    ensures (4 * srcLen + 2) / 3 <= destLen ==> n == (4 * srcLen + 2) / 3 && dest[..n] == Encoded(src[..srcLen])
  {
    hide Encoded, Final, Carry, Char, Taken, Written, Progress;
    var i, pos, restCount, rest := EncodeLoop(src, dest, srcLen, destLen);
    AllDone(i, pos, srcLen, destLen);
    Flushed(src[..i], pos);
    EncodedLength(src[..i]);
    FinalLength(src[..i]);
    if restCount > 0 {
      ghost var beyond := dest[pos..];
      dest[pos] := Char(rest);
      assert dest[pos + 1..] == beyond[1..] == old(dest[..])[pos..][1..] == old(dest[..])[pos + 1..];
      pos := pos + 1;
    }
    if (4 * srcLen + 2) / 3 <= destLen { RoomForAll(srcLen, destLen); }
    return pos;
  }

  lemma {:induction false} Started(srcLen: nat, destLen: nat)
    ensures Progress(0, 0, srcLen, destLen)
  {
  }

  lemma {:induction false} CarryNone()
    ensures Carry([]) == 0
  {
  }

  // ---------------------------------------------------------------- one character more

  /** What one more character adds to the decoded bytes. */
  function Completed(s: seq<Byte>, c: Byte): seq<Byte> {
    if |s| % 4 == 0 then []
    else if |s| % 4 == 1 then [D0(s[|s| - 1], c)]
    else if |s| % 4 == 2 then [D1(s[|s| - 1], c)]
    else [D2(s[|s| - 1], c)]
  }

  /** The three bytes of a complete group. */
  function Group(s: seq<Byte>): seq<Byte>
    requires |s| > 3
  {
    [D0(s[0], s[1]), D1(s[1], s[2]), D2(s[2], s[3])]
  }

  lemma {:induction false} DecodedPeel(s: seq<Byte>)
    requires |s| > 3
    ensures Decoded(s) == Group(s) + Decoded(s[4..])
  {
    hide D0, D1, D2;
  }

  lemma {:induction false} DecodedShort(s: seq<Byte>, c: Byte)
    requires |s| <= 3
    ensures Decoded(s + [c]) == Decoded(s) + Completed(s, c)
  {
    hide D0, D1, D2;
    var t := s + [c];
    if |s| == 3 {
      DecodedPeel(t);
      assert t[4..] == [];
      DecodedNone();
    }
  }

  lemma {:induction false} CompletedPeel(s: seq<Byte>, c: Byte)
    requires |s| > 3
    ensures Completed(s, c) == Completed(s[4..], c) || |s| == 4
    ensures |s| == 4 ==> Completed(s, c) == [] == Completed(s[4..], c)
  {
    hide D0, D1, D2;
  }

  lemma {:induction false} DecodedStep(s: seq<Byte>, c: Byte)
    ensures Decoded(s + [c]) == Decoded(s) + Completed(s, c)
    decreases |s|
  {
    hide Decoded, Completed, D0, D1, D2;
    if |s| <= 3 {
      DecodedShort(s, c);
    } else {
      var t := s + [c];
      DecodedStep(s[4..], c);
      DecodedPeel(s);
      DecodedPeel(t);
      CompletedPeel(s, c);
      assert t[4..] == s[4..] + [c] && Group(t) == Group(s);
    }
  }

  /** Reading on never changes what has been decoded. */
  lemma {:induction false} DecodedPrefix(s: seq<Byte>, i: nat)
    requires i <= |s|
    ensures Decoded(s[..i]) <= Decoded(s)
    decreases |s| - i
  {
    hide Decoded, Completed;
    if i < |s| {
      DecodedStep(s[..i], s[i]);
      assert s[..i + 1] == s[..i] + [s[i]];
      DecodedPrefix(s, i + 1);
    } else {
      assert s[..i] == s;
    }
  }

  /** The bits kept from the last character of an unfinished group. */
  function Kept(s: seq<Byte>): Byte {
    if |s| % 4 == 1 then Sextet(s[|s| - 1]) << 2
    else if |s| % 4 == 2 then Sextet(s[|s| - 1]) << 4
    else if |s| % 4 == 3 then Sextet(s[|s| - 1]) << 6
    else 0
  }

  const MASK: seq<Byte> := [0xfc, 0xf8, 0xf0, 0xe0, 0xc0]

  /** The expressions of the decoder loop, in the source's int arithmetic. */
  function Code(tmp: Byte, ch: Byte, bitPos: nat): Byte
    requires bitPos <= 6
  {
    (tmp as bv32 | ((ch as bv32 & 0x3f) >> (6 - bitPos))) as bv8
  }

  function Keep(ch: Byte, bitPos: nat): Byte
    requires 2 <= bitPos <= 6
  {
    ((ch as bv32 << bitPos) & MASK[bitPos - 2] as bv32) as bv8
  }

  lemma {:induction false} KeepIs(c: Byte)
    requires ValidChar(c)
    ensures Keep(c - OFFSET, 2) == Sextet(c) << 2
    ensures Keep(c - OFFSET, 4) == Sextet(c) << 4
    ensures Keep(c - OFFSET, 6) == Sextet(c) << 6
  {
  }

  lemma {:induction false} CodeIs(p: Byte, c: Byte)
    requires ValidChar(c)
    ensures Code(Sextet(p) << 2, c - OFFSET, 2) == D0(p, c)
    ensures Code(Sextet(p) << 4, c - OFFSET, 4) == D1(p, c)
    ensures Code(Sextet(p) << 6, c - OFFSET, 6) == D2(p, c)
  {
  }

  /** The first zero byte of a string that has one. */
  function ZeroAt(s: seq<Byte>): (z: nat)
    requires 0 in s
    ensures z < |s| && s[z] == 0 && forall i | 0 <= i < z :: s[i] != 0
  {
    if s[0] == 0 then 0 else 1 + ZeroAt(s[1..])
  }

  /** memlen: one more than the length of a zero-terminated string. */
  method MemLen(str: array<Byte>) returns (n: nat)
    requires 0 in str[..]
    ensures n == ZeroAt(str[..]) + 1
  {
    n := 0;
    while str[n] != 0
      invariant n <= ZeroAt(str[..])
      decreases str.Length - n
    {
      n := n + 1;
    }
    n := n + 1;
  }

  /** The decoder's bit counters after the characters `s`. */
  predicate Counters(k: nat, madeBit: nat, bitPos: nat) {
    (k % 4 == 0 && madeBit == 0 && bitPos == 2) || (k % 4 == 1 && madeBit == 6 && bitPos == 2)
    || (k % 4 == 2 && madeBit == 4 && bitPos == 4) || (k % 4 == 3 && madeBit == 2 && bitPos == 6)
  }

  /** The body of the decoder loop after its two tests: `s` are the characters already read. */
  method DecodeChar(c: Byte, dest: array<Byte>, pos: nat, madeBit: nat, bitPos: nat, tmp: Byte, ghost s: seq<Byte>)
    returns (pos': nat, madeBit': nat, bitPos': nat, tmp': Byte)
    requires ValidChar(c) && pos < dest.Length && Counters(|s|, madeBit, bitPos)
    requires |s| % 4 != 0 ==> tmp == Kept(s)
    modifies dest
    ensures pos' == pos + |Completed(s, c)| && Counters(|s| + 1, madeBit', bitPos')
    ensures (|s| + 1) % 4 != 0 ==> tmp' == Kept(s + [c])
    ensures dest[..pos'] == old(dest[..pos]) + Completed(s, c)
    ensures dest[pos'..] == old(dest[..])[pos'..]
  {
    hide D0, D1, D2, Code, Keep, Sextet;
    KeepIs(c);
    CodeIs(if |s| > 0 then s[|s| - 1] else 0, c);
    var ch := c - OFFSET;
    pos', madeBit', bitPos', tmp' := pos, madeBit, bitPos, tmp;
    if madeBit' + 6 >= 8 {
      dest[pos'] := Code(tmp', ch, bitPos');
      pos' := pos' + 1;
      madeBit' := 0;
      if bitPos' < 6 {
        bitPos' := bitPos' + 2;
      } else {
        bitPos' := 2;
        return;
      }
    }
    tmp' := Keep(ch, bitPos');
    madeBit' := madeBit' + (8 - bitPos');
  }

  /** fnDecode6BitBufA: decodes up to the capacity of the destination; a character below the code range
      makes the result empty, unless the destination was full before it was reached. */
  method Decode(src: array<Byte>, dest: array<Byte>, destLen: nat) returns (n: nat)
    requires src != dest && 0 in src[..] && destLen <= dest.Length
    modifies dest
    ensures var s := src[..ZeroAt(src[..])];
      Valid(s) ==> n == (if |Decoded(s)| < destLen then |Decoded(s)| else destLen) && dest[..n] == Decoded(s)[..n]
    ensures var s := src[..ZeroAt(src[..])];
      forall bad | 0 <= bad < |s| && Valid(s[..bad]) && !ValidChar(s[bad]) ::
        n == if bad > 0 && |Decoded(s[..bad - 1])| >= destLen then destLen else 0
  {
    hide Decoded, Completed, Kept;
    var len := MemLen(src);
    len := len - 1;
    ghost var s := src[..len];
    var pos, madeBit, bitPos := 0, 0, 2;
    var tmp: Byte := 0;
    DecodedNone();
    assert s[..0] == [];
    var i := 0;
    while i < len
      invariant 0 <= i <= len && Valid(s[..i]) && Counters(i, madeBit, bitPos)
      invariant i % 4 != 0 ==> tmp == Kept(s[..i])
      invariant pos == |Decoded(s[..i])| <= destLen && dest[..pos] == Decoded(s[..i])
      invariant i > 0 ==> |Decoded(s[..i - 1])| < destLen
      invariant src[..len] == s && src[..] == old(src[..])
    {
      if !(OFFSET <= src[i] <= 0x7f) {
        FirstBad(s, i);
        return 0;
      }
      DecodedPrefix(s, i);
      if pos >= destLen {
        CapacityReached(s, i, destLen);
        return pos;
      }
      DecodedStep(s[..i], s[i]);
      CompletedShort(s[..i], s[i]);
      assert s[..i + 1] == s[..i] + [s[i]];
      pos, madeBit, bitPos, tmp := DecodeChar(src[i], dest, pos, madeBit, bitPos, tmp, s[..i]);
      i := i + 1;
    }
    assert s[..len] == s;
    return pos;
  }

  lemma {:induction false} DecodedNone()
    ensures Decoded([]) == []
  {
  }

  lemma {:induction false} CompletedShort(s: seq<Byte>, c: Byte)
    ensures |Completed(s, c)| <= 1
  {
  }

  lemma {:induction false} ValidBefore(s: seq<Byte>, i: nat, k: nat)
    requires i <= |s|
    ensures Valid(s[..i]) && k < i ==> ValidChar(s[k])
  {
    assert k < i ==> s[..i][k] == s[k];
  }

  /** There is only one first invalid character. */
  lemma {:induction false} FirstBad(s: seq<Byte>, i: nat)
    requires i < |s| && Valid(s[..i]) && !ValidChar(s[i])
    ensures !Valid(s)
    ensures forall bad | 0 <= bad < |s| && Valid(s[..bad]) && !ValidChar(s[bad]) :: bad == i
  {
    forall bad | 0 <= bad < |s| && Valid(s[..bad]) && !ValidChar(s[bad]) ensures bad == i {
      ValidBefore(s, i, bad);
      ValidBefore(s, bad, i);
    }
  }

  lemma {:induction false} CapacityReached(s: seq<Byte>, i: nat, destLen: nat)
    requires i < |s| && ValidChar(s[i]) && Valid(s[..i]) && |Decoded(s[..i])| >= destLen
    ensures forall bad | 0 <= bad < |s| && Valid(s[..bad]) && !ValidChar(s[bad]) ::
      bad > 0 && |Decoded(s[..bad - 1])| >= destLen
  {
    forall bad | 0 <= bad < |s| && Valid(s[..bad]) && !ValidChar(s[bad])
      ensures bad > 0 && |Decoded(s[..bad - 1])| >= destLen
    {
      ValidBefore(s, i, bad);
      DecodedPrefix(s[..bad - 1], i);
      assert s[..bad - 1][..i] == s[..i];
    }
  }

  /** Encoding, terminating and decoding gives back the bytes. */
  method EncodeThenDecode(bytes: array<Byte>) returns (back: array<Byte>)
    ensures back[..] == bytes[..]
  {
    hide Encoded, Decoded;
    var size := (4 * bytes.Length + 2) / 3;
    var text := new Byte[size + 1];
    RoomForAll(bytes.Length, size);
    var n := Encode(bytes, text, bytes.Length, size);
    assert bytes[..bytes.Length] == bytes[..];
    text[n] := 0;
    EncodedPrintable(bytes[..]);
    RoundTrip(bytes[..]);
    assert text[..n] == Encoded(bytes[..]) && text[n] == 0;
    assert forall i | 0 <= i < n :: text[i] == Encoded(bytes[..])[i] && Printable(text[i]);
    assert text[n] in text[..];
    assert ZeroAt(text[..]) == n;
    back := new Byte[bytes.Length];
    var m := Decode(text, back, bytes.Length);
    assert text[..][..n] == text[..n];
  }
}
