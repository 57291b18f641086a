/** What name_suffix means: the characters after the last dot of a name. */
module NameLaws {
  import opened Base
  import opened Auctions

  /** The characters of a name, from the left: twelve of five bits and one of four; zero stands for a dot. */
  function Letter(n: Name, k: nat): int
    requires k <= 12
  {
    if k == 12 then n % 16 else CharAt(n, 59 - 5 * k)
  }

  /** A dot that is followed by another character. */
  ghost predicate Dot(n: Name, k: nat, len: nat)
    requires len <= 13
  {
    k < len && k < 12 && Letter(n, k) == 0 && exists j: nat :: k < j < len && Letter(n, j) != 0
  }

  /** `k` is the last dot among the first `len` characters. */
  ghost predicate LastDot(n: Name, k: nat, len: nat)
    requires len <= 13
  {
    Dot(n, k, len) && forall j: nat {:trigger Dot(n, j, len)} :: k < j ==> !Dot(n, j, len)
  }

  // ---------------------------------------------------------------- the loop

  /** The bits below character `k`. */
  function Below(k: nat): nat
    requires k < 12
  {
    59 - 5 * k
  }

  /** `tmp` holds the place of the last empty one among the first `i` characters, zero if there is none. */
  ghost predicate LastEmpty(n: Name, i: nat, tmp: nat)
    requires i <= 12
  {
    if tmp == 0 then forall k: nat :: k < i ==> Letter(n, k) != 0
    else exists k: nat ::
           k < i && tmp == Below(k) && Letter(n, k) == 0 && forall j: nat :: k < j < i ==> Letter(n, j) != 0
  }

  /** `last` holds the place of the last dot among the first `len` characters, zero if there is none. */
  ghost predicate Found(n: Name, len: nat, last: nat)
    requires len <= 13
  {
    if last == 0 then forall k: nat {:trigger Dot(n, k, len)} :: !Dot(n, k, len)
    else exists k: nat :: k < 12 && last == Below(k) && LastDot(n, k, len)
  }

  /** One more character that is no dot makes the last empty place a dot. */
  lemma {:induction false} CharacterFollows(n: Name, i: nat, tmp: nat)
    requires i <= 12 && LastEmpty(n, i, tmp) && Letter(n, i) != 0
    ensures Found(n, i + 1, tmp)
  {
    hide Letter;
    if tmp != 0 {
      var k: nat :| k < i && tmp == Below(k) && Letter(n, k) == 0 && forall j: nat :: k < j < i ==> Letter(n, j) != 0;
      assert Dot(n, k, i + 1);
      assert LastDot(n, k, i + 1);
    }
  }

  /** One more empty place makes no dot. */
  lemma {:induction false} EmptyFollows(n: Name, i: nat, last: nat)
    requires i <= 12 && Found(n, i, last) && Letter(n, i) == 0
    ensures Found(n, i + 1, last)
  {
    hide Letter, Dot;
    var m := i + 1;
    forall k: nat ensures Dot(n, k, m) <==> Dot(n, k, i) { SameDot(n, k, i); }
    if last != 0 {
      var k: nat :| k < 12 && last == Below(k) && LastDot(n, k, i);
      assert LastDot(n, k, m);
    }
  }

  lemma {:induction false} SameDot(n: Name, k: nat, i: nat)
    requires i <= 12 && Letter(n, i) == 0
    ensures Dot(n, k, i + 1) <==> Dot(n, k, i)
  {
    hide Letter;
    if Dot(n, k, i + 1) {
      var j: nat :| k < j < i + 1 && Letter(n, j) != 0;
      assert j < i;
    }
  }

  lemma {:induction false} LoopFinds(n: Name, i: nat, tmp: nat, last: nat)
    requires i <= 12 && LastEmpty(n, i, tmp) && Found(n, i, last)
    ensures Found(n, 13, BitsAfterDot(n, i, tmp, last))
    decreases 12 - i
  {
    hide CharAt, Found, Pow2;
    if Letter(n, i) == 0 { EmptyFollows(n, i, last); } else { CharacterFollows(n, i, tmp); }
    if i < 12 {
      if Letter(n, i) == 0 {
        assert tmp != Below(i) ==> Below(i) != 0;
        assert LastEmpty(n, i + 1, Below(i));
        LoopFinds(n, i + 1, Below(i), last);
      } else {
        StillEmpty(n, i, tmp);
        LoopFinds(n, i + 1, tmp, tmp);
      }
    }
  }

  lemma {:induction false} StillEmpty(n: Name, i: nat, tmp: nat)
    requires i < 12 && LastEmpty(n, i, tmp) && Letter(n, i) != 0
    ensures LastEmpty(n, i + 1, tmp)
  {
    hide Letter;
    if tmp != 0 {
      var k: nat :| k < i && tmp == Below(k) && Letter(n, k) == 0 && forall j: nat :: k < j < i ==> Letter(n, j) != 0;
      assert forall j: nat :: k < j < i + 1 ==> Letter(n, j) != 0;
    }
  }

  // ---------------------------------------------------------------- the bits

  lemma {:induction false} PowAdd(a: nat, b: nat)
    ensures Pow2(a + b) == Pow2(a) * Pow2(b)
  {
    if a > 0 {
      PowAdd(a - 1, b);
      Twice(Pow2(a - 1), Pow2(b));
    }
  }

  lemma {:induction false} Twice(x: nat, y: nat)
    ensures 2 * (x * y) == 2 * x * y
  {
  }

  /** `m` times `p` divided by `p`. */
  lemma {:induction false} DivExact(m: nat, p: nat)
    requires p > 0
    ensures m * p / p == m
  {
    DivUnique(m * p, p, m, 0);
  }

  lemma {:induction false} ModMultiple(m: nat, d: nat)
    requires d > 0
    ensures m * d % d == 0
  {
    DivExact(m, d);
    DivMod(m * d, d);
  }

  lemma {:induction false} ModPlus(m: nat, d: nat, x: nat)
    requires d > 0
    ensures (m * d + x) % d == x % d
  {
    DivMod(x, d);
    assert (m + x / d) * d == m * d + x / d * d;
    DivUnique(m * d + x, d, m + x / d, x % d);
    DivMod(m * d + x, d);
  }

  /** The digits of a number below the `p * 32 * z` place are those of its remainder. */
  lemma {:induction false} DigitOfRest(x: nat, p: nat, z: nat)
    requires p > 0 && z > 0
    ensures p * (32 * z) > 0 && x % (p * (32 * z)) / p % 32 == x / p % 32
  {
    MulPositive(p, 32 * z);
    var w := p * (32 * z);
    var q, y := x / w, x % w;
    DivMod(x, w);
    Regroup(q, p, z);
    DivPlus(q * z * 32, p, y);
    ModPlus(q * z, 32, y / p);
  }

  lemma {:induction false} Regroup(q: nat, p: nat, z: nat)
    ensures q * (p * (32 * z)) == q * z * 32 * p
  {
    assert p * (32 * z) == 32 * (z * p);
    assert q * (32 * (z * p)) == 32 * (q * (z * p));
    assert q * (z * p) == q * z * p;
    assert q * z * 32 * p == 32 * (q * z * p);
  }

  lemma {:induction false} DivPlus(a: nat, p: nat, y: nat)
    requires p > 0
    ensures (a * p + y) / p == a + y / p
  {
    DivMod(y, p);
    assert (a + y / p) * p == a * p + y / p * p;
    DivUnique(a * p + y, p, a + y / p, y % p);
  }

  lemma {:induction false} MulPositive(a: nat, b: nat)
    requires a > 0 && b > 0
    ensures a * b > 0
  {
  }

  /** The suffix after a dot at `k`, as one product: the five-bit characters between the dot and the thirteenth, that
      one as a five-bit character, and the room of the characters dropped. */
  function Kept(n: Name, k: nat): nat
    requires k < 12
  {
    Pow2Positive(55 - 5 * k);
    32 * (n / 16 % Pow2(55 - 5 * k)) + n % 16
  }

  lemma {:induction false} LowBits(n: nat, p: nat)
    requires p > 0
    ensures n % (16 * p) - n % 16 == 16 * (n / 16 % p)
  {
    DivTwice(n, 16, p);
    DivMod(n, 16);
    DivMod(n / 16, p);
    var a, b := n / 16 / p, n / 16 % p;
    assert 16 * (p * a) == (16 * p) * a;
    DivUnique(n, 16 * p, a, 16 * b + n % 16);
    DivMod(n, 16 * p);
  }

  lemma {:induction false} SuffixProduct(n: Name, k: nat)
    requires k < 12 && BitsAfterDot(n, 0, 0, 0) == Below(k)
    ensures Suffix(n) == Kept(n, k) * Pow2(4 + 5 * k)
  {
    hide BitsAfterDot, Shifted, Pow2, Kept;
    ShiftedProduct(n, k);
  }

  lemma {:induction false} ShiftedProduct(n: Name, k: nat)
    requires k < 12
    ensures Shifted(n, Below(k)) == Kept(n, k) * Pow2(4 + 5 * k)
  {
    hide Pow2, Shifted, Kept;
    var p, h, q := Pow2(55 - 5 * k), Pow2(4 + 5 * k), Pow2(64 - Below(k));
    PlacesOf(k);
    Pow2Positive(55 - 5 * k);
    Pow2Positive(Below(k));
    var low := n % Pow2(Below(k));
    ShiftedParts(n, Below(k), low, q, h);
    KeptParts(n, k, p);
    LowPart(n, Pow2(Below(k)), p);
    Assemble(low, n % 16, n / 16 % p, p, h, q);
  }

  lemma {:induction false} ShiftedParts(n: Name, bits: nat, low: nat, q: nat, h: nat)
    requires 0 < bits < 64 && Pow2(bits) > 0 && low == n % Pow2(bits) && q == Pow2(64 - bits) && h == Pow2(63 - bits)
    ensures Shifted(n, bits) == ((low - n % 16) * q + n % 16 * h) % TWO64
  {
    hide Pow2;
  }

  lemma {:induction false} KeptParts(n: Name, k: nat, p: nat)
    requires k < 12 && p > 0 && p == Pow2(55 - 5 * k)
    ensures Kept(n, k) == 32 * (n / 16 % p) + n % 16
  {
    hide Pow2;
  }

  lemma {:induction false} LowPart(n: nat, d: nat, p: nat)
    requires p > 0 && d == 16 * p
    ensures n % d - n % 16 == 16 * (n / 16 % p)
  {
    LowBits(n, p);
  }

  lemma {:induction false} Assemble(low: nat, t: nat, m: nat, p: nat, h: nat, q: nat)
    requires low - t == 16 * m && t < 16 && m < p && p * h == 0x0800_0000_0000_0000 && q == 2 * h
    ensures ((low - t) * q + t * h) % TWO64 == (32 * m + t) * h
  {
    KeptFits(m, t, p, h);
    assert (low - t) * q == 16 * m * (2 * h);
    assert 16 * m * (2 * h) + t * h == (32 * m + t) * h;
  }

  lemma {:induction false} PlacesOf(k: nat)
    requires k < 12
    ensures Pow2(Below(k)) == 16 * Pow2(55 - 5 * k) && Pow2(64 - Below(k)) == 2 * Pow2(4 + 5 * k)
    ensures 63 - Below(k) == 4 + 5 * k && Pow2(55 - 5 * k) * Pow2(4 + 5 * k) == 0x0800_0000_0000_0000
  {
    PowAdd(4, 55 - 5 * k);
    assert Pow2(4) == 16;
    PowAdd(55 - 5 * k, 4 + 5 * k);
    Pow59();
  }

  lemma {:induction false} Pow59()
    ensures Pow2(59) == 0x0800_0000_0000_0000
  {
    assert Pow2(10) == 1024;
    PowAdd(10, 10);
    PowAdd(20, 20);
    PowAdd(40, 10);
    PowAdd(50, 9);
    assert Pow2(9) == 512;
  }

  lemma {:induction false} KeptFits(m: nat, t: nat, p: nat, h: nat)
    requires m < p && t < 16 && p * h == 0x0800_0000_0000_0000
    ensures (32 * m + t) * h < TWO64
  {
    assert (32 * m + t) * h <= (32 * m + 16) * h;
    assert (32 * m + 32) * h == 32 * ((m + 1) * h);
    assert (m + 1) * h <= p * h;
  }

  // ---------------------------------------------------------------- the characters of the suffix

  /** Before the thirteenth: the characters move up by as many places as are dropped. */
  lemma {:induction false} MovedUp(n: Name, k: nat, m: nat)
    requires k < 12 && m + k < 11 && Kept(n, k) * Pow2(4 + 5 * k) < TWO64
    ensures Letter(Kept(n, k) * Pow2(4 + 5 * k), m) == Letter(n, m + k + 1)
  {
    hide Pow2, Kept;
    var e: nat := 50 - 5 * k - 5 * m;
    var h, p := Pow2(4 + 5 * k), Pow2(e);
    Pow2Positive(4 + 5 * k);
    Pow2Positive(e);
    Pow2Positive(5 * m);
    PowAdd(4 + 5 * k, e + 5);
    PowAdd(5, e);
    PowAdd(4, e);
    PowAdd(e, 5 + 5 * m);
    PowAdd(5, 5 * m);
    SmallPowers();
    assert 59 - 5 * m == 4 + 5 * k + (e + 5) && 59 - 5 * (m + k + 1) == 4 + e && e + (5 + 5 * m) == 55 - 5 * k;
    KeptDigit(n, Kept(n, k), h, p, Pow2(5 * m), k);
  }

  lemma {:induction false} SmallPowers()
    ensures Pow2(4) == 16 && Pow2(5) == 32
  {
  }

  lemma {:induction false} KeptDigit(n: nat, w: nat, h: nat, p: nat, z: nat, k: nat)
    requires n < TWO64 && k < 12 && h > 0 && p > 0 && z > 0
    requires Pow2(55 - 5 * k) == p * (32 * z) && w == Kept(n, k)
    ensures h * (32 * p) > 0 && 16 * p > 0 && w * h / (h * (32 * p)) % 32 == n / (16 * p) % 32
  {
    hide Pow2;
    MulPositive(h, 32 * p);
    assert h * (32 * p) == (32 * p) * h;
    DivTwice(w * h, h, 32 * p);
    DivExact(w, h);
    DivTwice(w, 32, p);
    assert p * 32 == 32 * p;
    DivPlus(n / 16 % (p * (32 * z)), 32, n % 16);
    DigitOfRest(n / 16, p, z);
    DivTwice(n, 16, p);
  }

  /** The thirteenth, of four bits, becomes one of five. */
  lemma {:induction false} ThirteenthMoves(n: Name, k: nat)
    requires k < 12 && Kept(n, k) * Pow2(4 + 5 * k) < TWO64
    ensures Letter(Kept(n, k) * Pow2(4 + 5 * k), 11 - k) == Letter(n, 12)
  {
    hide Pow2, Kept;
    Pow2Positive(4 + 5 * k);
    assert 59 - 5 * (11 - k) == 4 + 5 * k;
    DivExact(Kept(n, k), Pow2(4 + 5 * k));
    KeptLast(n, k);
  }

  lemma {:induction false} KeptLast(n: Name, k: nat)
    requires k < 12
    ensures Kept(n, k) % 32 == n % 16
  {
    hide Pow2;
    Pow2Positive(55 - 5 * k);
    ModPlus(n / 16 % Pow2(55 - 5 * k), 32, n % 16);
  }

  /** After it there is nothing. */
  lemma {:induction false} NothingAfter(w: nat, k: nat, m: nat)
    requires k < 12 && 12 <= m + k && m <= 12 && w * Pow2(4 + 5 * k) < TWO64
    ensures Letter(w * Pow2(4 + 5 * k), m) == 0
  {
    hide Pow2;
    var c: nat := if m == 12 then 4 else 59 - 5 * m;
    var d: nat := 5 * (m + k - 12);
    PowAdd(4, 5 * k);
    SmallPowers();
    if m == 12 {
      assert w * (16 * Pow2(5 * k)) == w * Pow2(5 * k) * 16;
      ModMultiple(w * Pow2(5 * k), 16);
    } else {
      assert 4 + 5 * k == c + (5 + d);
      PowAdd(c, 5 + d);
      PowAdd(5, d);
      Pow2Positive(c);
      TrailingZero(w, Pow2(c), Pow2(d));
    }
  }

  lemma {:induction false} TrailingZero(w: nat, p: nat, z: nat)
    requires p > 0
    ensures w * (p * (32 * z)) / p % 32 == 0
  {
    Regroup(w, p, z);
    DivExact(w * z * 32, p);
    ModMultiple(w * z, 32);
  }

  /** The suffix of a name without a dot is the name. Otherwise its characters are those after the last dot, in
      order, and nothing else. */
  lemma {:induction false} SuffixMeaning(n: Name, k: nat)
    ensures (forall j: nat {:trigger Dot(n, j, 13)} :: !Dot(n, j, 13)) ==> Suffix(n) == n
    ensures LastDot(n, k, 13) ==>
      && 0 <= Suffix(n) < TWO64
      && forall m: nat {:trigger Letter(Suffix(n), m)} | m <= 12 ::
           Letter(Suffix(n), m) == if m + k + 1 <= 12 then Letter(n, m + k + 1) else 0
  {
    hide Letter, BitsAfterDot, Dot, Pow2, Kept;
    NothingSeen(n);
    LoopFinds(n, 0, 0, 0);
    var bits := BitsAfterDot(n, 0, 0, 0);
    if bits == 0 {
    } else {
      var j: nat :| j < 12 && bits == Below(j) && LastDot(n, j, 13);
      if LastDot(n, k, 13) {
        assert j == k;
        SuffixProduct(n, k);
        forall m: nat | m <= 12 ensures Letter(Suffix(n), m) == if m + k + 1 <= 12 then Letter(n, m + k + 1) else 0 {
          if m + k < 11 {
            MovedUp(n, k, m);
          } else if m + k == 11 {
            ThirteenthMoves(n, k);
          } else {
            NothingAfter(Kept(n, k), k, m);
          }
        }
      }
    }
  }

  lemma {:induction false} NothingSeen(n: Name)
    ensures LastEmpty(n, 0, 0) && Found(n, 0, 0)
  {
  }

  /** With a dot, the suffix is a different name. */
  lemma {:induction false} DottedDiffers(n: Name, k: nat, m: nat)
    requires LastDot(n, k, 13) && Suffix(n) == n && m <= 12
    ensures Letter(n, m) == 0
    decreases 12 - m
  {
    hide Letter, Suffix;
    SuffixMeaning(n, k);
    assert Letter(Suffix(n), m) == if m + k + 1 <= 12 then Letter(n, m + k + 1) else 0;
    if m + k + 1 <= 12 { DottedDiffers(n, k, m + k + 1); }
  }

  /** A name is its own suffix exactly when it has no dot that is followed by another character. */
  lemma {:induction false} TopLevelIff(n: Name)
    ensures Suffix(n) == n <==> forall k: nat {:trigger Dot(n, k, 13)} :: !Dot(n, k, 13)
  {
    hide Letter, Suffix, BitsAfterDot, Dot;
    SuffixMeaning(n, 0);
    NothingSeen(n);
    LoopFinds(n, 0, 0, 0);
    if BitsAfterDot(n, 0, 0, 0) != 0 {
      var k: nat :| k < 12 && BitsAfterDot(n, 0, 0, 0) == Below(k) && LastDot(n, k, 13);
      if Suffix(n) == n {
        DotHasCharacter(n, k);
        var j: nat :| j <= 12 && Letter(n, j) != 0;
        DottedDiffers(n, k, j);
      }
    }
  }

  lemma {:induction false} DotHasCharacter(n: Name, k: nat)
    requires Dot(n, k, 13)
    ensures exists j: nat :: j <= 12 && Letter(n, j) != 0
  {
    hide Letter;
  }

  /** The test of newaccount: one of the first twelve characters is empty. */
  lemma {:induction false} HasDotIff(n: Name)
    ensures HasDot(n) <==> exists k: nat :: k < 12 && Letter(n, k) == 0
  {
    hide CharAt;
    if HasDot(n) {
      var i: nat :| i < 12 && CharAt(n, 4 + 5 * i) == 0;
      assert Letter(n, 11 - i) == 0;
    }
    if k: nat :| k < 12 && Letter(n, k) == 0 {
      assert CharAt(n, 4 + 5 * (11 - k)) == 0;
    }
  }

  /** Names that can be bid on: not empty, of at most eleven characters, without a dot that is followed by another
      character, and not in use. */
  lemma {:induction false} BiddableIff(n: Name, accounts: set<Name>)
    ensures Biddable(n, accounts) <==>
      && n != NO_NAME && n !in accounts && Letter(n, 11) == Letter(n, 12) == 0
      && forall k: nat {:trigger Dot(n, k, 13)} :: !Dot(n, k, 13)
  {
    hide Suffix, Dot;
    TopLevelIff(n);
    SmallPowers();
  }
}
