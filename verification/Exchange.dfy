/** The two-leg relay conversion of exchange_state. A connector of weight w gives the powers w/1000
    and 1000/w; for w = 1/2 these are the 2000th root and the 2000th power. The model keeps the
    exponent as a field and computes both legs exactly: the truncated root is the largest integer
    that fits, so floating-point error is idealised away and truncation is not. */
module Exchange {
  import opened Base

  datatype Symbol = Ram | Core | Relay | Other(id: nat)

  /** exchange_state: relay supply, base (RAM) and quote (core token) balances. */
  datatype Market = Market(supply: nat, base: nat, quote: nat, exponent: nat)

  function Pow(b: nat, n: nat): nat { if n == 0 then 1 else b * Pow(b, n - 1) }

  // ---------------------------------------------------------------- powers

  lemma {:induction false} PowPositive(b: nat, n: nat)
    requires b > 0
    ensures Pow(b, n) > 0
  {
    if n > 0 {
      PowPositive(b, n - 1);
      MulPositive(b, Pow(b, n - 1));
    }
  }

  lemma {:induction false} MulPositive(a: nat, b: nat)
    requires a > 0 && b > 0
    ensures a * b > 0
  {
  }

  lemma {:induction false} MulMonotone(a: nat, b: nat, c: nat, d: nat)
    requires a <= b && c <= d
    ensures a * c <= b * d
  {
    assert a * c <= b * c;
    assert b * c <= b * d;
  }

  lemma {:induction false} Cancel(a: nat, b: nat, c: nat)
    requires c > 0 && a * c <= b * c
    ensures a <= b
  {
  }

  lemma {:induction false} PowMonotone(a: nat, b: nat, n: nat)
    requires a <= b
    ensures Pow(a, n) <= Pow(b, n)
  {
    if n > 0 {
      PowMonotone(a, b, n - 1);
      MulMonotone(a, b, Pow(a, n - 1), Pow(b, n - 1));
    }
  }

  // ---------------------------------------------------------------- the first leg

  /** Issuing `e` relay tokens for a deposit of `t` into a connector holding `c` afterwards does not
      exceed r * ((1 + t/c)^(1/n) - 1). */
  predicate Fits(r: nat, c: nat, t: nat, n: nat, e: nat) {
    Pow(r + e, n) * c <= (c + t) * Pow(r, n)
  }

  lemma {:induction false} FitsZero(r: nat, c: nat, t: nat, n: nat)
    ensures Fits(r, c, t, n, 0)
  {
    MulMonotone(c, c + t, Pow(r, n), Pow(r, n));
  }

  /** What fits is bounded, so the search below ends. */
  lemma {:induction false} FitsBound(r: nat, c: nat, t: nat, n: nat, e: nat)
    requires r > 0 && c > 0 && n > 0 && Fits(r, c, t, n, e)
    ensures e * c <= r * t && e <= r * t
  {
    var p := Pow(r, n - 1);
    PowPositive(r, n - 1);
    PowMonotone(r, r + e, n - 1);
    MulMonotone(r + e, r + e, p, Pow(r + e, n - 1));
    MulMonotone((r + e) * p, Pow(r + e, n), c, c);
    FitsArith(r, c, t, e, p);
  }

  lemma {:induction false} FitsArith(r: nat, c: nat, t: nat, e: nat, p: nat)
    requires c > 0 && p > 0 && (r + e) * p * c <= (c + t) * (r * p)
    ensures e * c <= r * t && e <= r * t
  {
    assert (r + e) * p * c == (r + e) * c * p;
    assert (c + t) * (r * p) == (c + t) * r * p;
    Cancel((r + e) * c, (c + t) * r, p);
    assert (r + e) * c == r * c + e * c;
    assert (c + t) * r == c * r + t * r;
    MulMonotone(e, e, 1, c);
  }

  /** The amount of relay tokens issued by the first leg: the largest that fits. */
  function Issued(r: nat, c: nat, t: nat, n: nat): (e: nat)
    requires r > 0 && c > 0 && n > 0
    ensures Fits(r, c, t, n, e) && !Fits(r, c, t, n, e + 1)
  {
    FitsZero(r, c, t, n);
    Search(r, c, t, n, 0)
  }

  function Search(r: nat, c: nat, t: nat, n: nat, e: nat): (e': nat)
    requires r > 0 && c > 0 && n > 0 && Fits(r, c, t, n, e)
    ensures Fits(r, c, t, n, e') && !Fits(r, c, t, n, e' + 1)
    decreases r * t - e
  {
    FitsBound(r, c, t, n, e);
    if Fits(r, c, t, n, e + 1) then (FitsBound(r, c, t, n, e + 1); Search(r, c, t, n, e + 1)) else e
  }

  lemma {:induction false} FitsDown(r: nat, c: nat, t: nat, n: nat, e: nat, d: nat)
    requires Fits(r, c, t, n, e) && d <= e
    ensures Fits(r, c, t, n, d)
  {
    PowMonotone(r + d, r + e, n);
    MulMonotone(Pow(r + d, n), Pow(r + e, n), c, c);
  }

  /** An amount fits exactly when it is at most what is issued. */
  lemma {:induction false} IssuedIff(r: nat, c: nat, t: nat, n: nat, d: nat)
    requires r > 0 && c > 0 && n > 0
    ensures Fits(r, c, t, n, d) <==> d <= Issued(r, c, t, n)
  {
    var e := Issued(r, c, t, n);
    if d <= e { FitsDown(r, c, t, n, e, d); } else if Fits(r, c, t, n, d) { FitsDown(r, c, t, n, d, e + 1); }
  }

  // ---------------------------------------------------------------- the second leg

  /** The amount paid out by the second leg: c * ((1 + e/r)^n - 1), truncated. */
  function Released(r: nat, c: nat, e: nat, n: nat): (t: nat)
    requires r > 0
  {
    PowPositive(r, n);
    ReleasedNat(r, c, e, n);
    c * Pow(r + e, n) / Pow(r, n) - c
  }

  lemma {:induction false} ReleasedNat(r: nat, c: nat, e: nat, n: nat)
    requires r > 0 && Pow(r, n) > 0
    ensures c <= c * Pow(r + e, n) / Pow(r, n)
  {
    PowMonotone(r, r + e, n);
    MulMonotone(c, c, Pow(r, n), Pow(r + e, n));
    DivAtLeast(c, c * Pow(r + e, n), Pow(r, n));
  }

  lemma {:induction false} DivAtLeast(q: nat, a: nat, d: nat)
    requires d > 0
    ensures q <= a / d <==> q * d <= a
  {
    var q0, r0 := a / d, a % d;
    assert a == q0 * d + r0;
    if q <= q0 {
      MulMonotone(q, q0, d, d);
    } else {
      MulMonotone(q0 + 1, q, d, d);
      assert (q0 + 1) * d == q0 * d + d;
    }
  }

  /** An amount can be paid out exactly when it is at most what is released. */
  lemma {:induction false} ReleasedIff(r: nat, c: nat, e: nat, n: nat, t: nat)
    requires r > 0
    ensures t <= Released(r, c, e, n) <==> (c + t) * Pow(r, n) <= c * Pow(r + e, n)
  {
    PowPositive(r, n);
    DivAtLeast(c + t, c * Pow(r + e, n), Pow(r, n));
  }

  // ---------------------------------------------------------------- conversions

  /** The connector a symbol names. */
  function Holding(m: Market, s: Symbol): nat
    requires s.Ram? || s.Core?
  {
    if s.Ram? then m.base else m.quote
  }

  function WithHolding(m: Market, s: Symbol, amount: nat): Market
    requires s.Ram? || s.Core?
  {
    if s.Ram? then m.(base := amount) else m.(quote := amount)
  }

  /** convert_to_exchange. */
  function ToExchange(m: Market, s: Symbol, amount: nat): (Market, nat)
    requires (s.Ram? || s.Core?) && m.supply > 0 && m.exponent > 0 && Holding(m, s) + amount > 0
  {
    var c := Holding(m, s) + amount;
    var e := Issued(m.supply, c, amount, m.exponent);
    (WithHolding(m.(supply := m.supply + e), s, c), e)
  }

  /** convert_from_exchange. */
  function FromExchange(m: Market, s: Symbol, amount: nat): (Market, int)
    requires (s.Ram? || s.Core?) && amount < m.supply
    requires Released(m.supply - amount, Holding(m, s), amount, m.exponent) <= Holding(m, s)
  {
    var out := Released(m.supply - amount, Holding(m, s), amount, m.exponent);
    (WithHolding(m.(supply := m.supply - amount), s, Holding(m, s) - out), out)
  }

  /** The two connectors of the market, one way round or the other. */
  predicate Pair(from: Symbol, to: Symbol) { (from.Ram? && to.Core?) || (from.Core? && to.Ram?) }

  /** The largest payment of a constant-product exchange, as an inequality without division. */
  lemma {:induction false} LegsBound(s: nat, x: nat, t: nat, y: nat, n: nat, e: nat, out: nat)
    requires s > 0 && x + t > 0 && n > 0 && Fits(s, x + t, t, n, e)
    requires (y + out) * Pow(s, n) <= y * Pow(s + e, n)
    ensures out * (x + t) <= y * t && out <= y
  {
    var p, q := Pow(s, n), Pow(s + e, n);
    PowPositive(s, n);
    MulMonotone((y + out) * p, y * q, x + t, x + t);
    MulMonotone(y, y, q * (x + t), (x + t + t) * p);
    BoundArith(x, t, y, out, p, q);
  }

  lemma {:induction false} BoundArith(x: nat, t: nat, y: nat, out: nat, p: nat, q: nat)
    requires p > 0 && x + t > 0
    requires (y + out) * p * (x + t) <= y * q * (x + t)
    requires y * (q * (x + t)) <= y * ((x + t + t) * p)
    ensures out * (x + t) <= y * t && out <= y
  {
    MulAssociates(y, q, x + t);
    SwapFactors(y + out, p, x + t);
    MulAssociates(y, x + t + t, p);
    Cancel((y + out) * (x + t), y * (x + t + t), p);
    PaysAtMost(x, t, y, out);
  }

  lemma {:induction false} PaysAtMost(x: nat, t: nat, y: nat, out: nat)
    requires x + t > 0 && (y + out) * (x + t) <= y * (x + t + t)
    ensures out * (x + t) <= y * t && out <= y
  {
    assert out * (x + t) <= y * t by {
      assert (y + out) * (x + t) == y * (x + t) + out * (x + t);
      assert y * (x + t + t) == y * (x + t) + y * t;
    }
    MulMonotone(y, y, t, x + t);
    Cancel(out, y, x + t);
  }

  /** Selling `t` of one side for the other: both legs of convert. */
  function Swap(m: Market, from: Symbol, t: nat): (r: (Market, nat))
    requires (from.Ram? || from.Core?) && m.supply > 0 && m.exponent > 0 && Holding(m, from) + t > 0
    ensures r.0.supply == m.supply && r.0.exponent == m.exponent
    ensures var to := if from.Ram? then Core else Ram;
      && Holding(r.0, from) == Holding(m, from) + t
      && Holding(r.0, to) == Holding(m, to) - r.1
      && r.1 * (Holding(m, from) + t) <= Holding(m, to) * t
  {
    var to := if from.Ram? then Core else Ram;
    var (m1, e) := ToExchange(m, from, t);
    var out := Released(m.supply, Holding(m1, to), e, m.exponent);
    ReleasedIff(m.supply, Holding(m1, to), e, m.exponent, out);
    LegsBound(m.supply, Holding(m, from), t, Holding(m1, to), m.exponent, e, out);
    FromExchange(m1, to, e)
  }

  lemma {:induction false} SelfArith(c: nat, t: nat, out: nat, p: nat, q: nat)
    requires p > 0 && q * c <= (c + t) * p && (c + out) * p <= c * q
    ensures out <= t
  {
    Cancel(c + out, c + t, p);
  }

  /** The second leg can always pay, also back into the connector that was just deposited into. */
  lemma {:induction false} LegsFit(m: Market, amount: nat, from: Symbol, to: Symbol)
    requires (from.Ram? || from.Core?) && (to.Ram? || to.Core?)
    requires m.supply > 0 && m.exponent > 0 && Holding(m, from) + amount > 0
    ensures var (m1, e) := ToExchange(m, from, amount);
      var out := Released(m.supply, Holding(m1, to), e, m.exponent);
      out <= Holding(m1, to) && (from == to ==> out <= amount)
  {
    if from == to {
      var c := Holding(m, from) + amount;
      var e := Issued(m.supply, c, amount, m.exponent);
      var out := Released(m.supply, c, e, m.exponent);
      ReleasedIff(m.supply, c, e, m.exponent, out);
      PowPositive(m.supply, m.exponent);
      SelfArith(c, amount, out, Pow(m.supply, m.exponent), Pow(m.supply + e, m.exponent));
    } else {
      var _ := Swap(m, from, amount);
    }
  }

  /** convert: the source's recursion over the symbol pair, at most two deep. Selling relay tokens
      must leave some supply, as the second leg of every conversion does. */
  function Convert(m: Market, amount: nat, from: Symbol, to: Symbol): Outcome<(Market, int)>
    requires m.supply > 0 && m.exponent > 0
    requires from.Ram? || from.Core? ==> Holding(m, from) + amount > 0
    requires from.Relay? && (to.Ram? || to.Core?) ==>
      amount < m.supply && Released(m.supply - amount, Holding(m, to), amount, m.exponent) <= Holding(m, to)
    decreases if from.Relay? then 0 else 1
  {
    if !from.Relay? then
      :- Assert(from.Ram? || from.Core?, InvalidSell);
      var (m1, e) := ToExchange(m, from, amount);
      if to.Relay? then Commit((m1, e)) else
        :- Assert(to.Ram? || to.Core?, InvalidConversion);
        LegsFit(m, amount, from, to);
        Convert(m1, e, Relay, to)
    else
      :- Assert(to.Ram? || to.Core?, InvalidConversion);
      Commit(FromExchange(m, to, amount))
  }

  /** A conversion between the two connectors is a swap. */
  lemma {:induction false} ConvertIsSwap(m: Market, amount: nat, from: Symbol, to: Symbol)
    requires m.supply > 0 && m.exponent > 0 && Pair(from, to) && Holding(m, from) + amount > 0
    ensures Convert(m, amount, from, to) == Commit(Swap(m, from, amount))
  {
  }

  // ---------------------------------------------------------------- the constant-product law

  /** The swap refines a constant-product exchange: the payment is at most Y*T/(X+T), and the product of
      the two balances never falls. */
  lemma {:induction false} SwapKeepsProduct(m: Market, from: Symbol, t: nat)
    requires (from.Ram? || from.Core?) && m.supply > 0 && m.exponent > 0 && Holding(m, from) + t > 0
    ensures var m' := Swap(m, from, t).0; m.base * m.quote <= m'.base * m'.quote
  {
    hide Swap;
    var to := if from.Ram? then Core else Ram;
    var (m', out) := Swap(m, from, t);
    var x, y := Holding(m, from), Holding(m, to);
    assert (x + t) * (y - out) == x * y + t * y - out * (x + t);
  }

  /** Buying with `t` and selling everything bought at once never returns more than was paid. */
  lemma {:induction false} RoundTripNeverGains(m: Market, from: Symbol, t: nat)
    requires (from.Ram? || from.Core?) && m.supply > 0 && m.exponent > 0 && Holding(m, from) + t > 0
    ensures var to := if from.Ram? then Core else Ram;
      var (m1, got) := Swap(m, from, t);
      Holding(m1, to) + got > 0 ==> Swap(m1, to, got).1 <= t
  {
    hide Swap;
    var to := if from.Ram? then Core else Ram;
    var (m1, got) := Swap(m, from, t);
    var x, y := Holding(m, from), Holding(m, to);
    if y > 0 {
      var back := Swap(m1, to, got).1;
      BackBound(back, y, x + t, got, t);
    }
  }

  lemma {:induction false} BackBound(back: nat, y: nat, z: nat, got: nat, t: nat)
    requires y > 0 && back * y <= z * got && got * z <= y * t
    ensures back <= t
  {
    Cancel(back, t, y);
  }

  /** A larger payment never buys less. */
  lemma {:induction false} SwapMonotone(m: Market, from: Symbol, t: nat, t': nat)
    requires (from.Ram? || from.Core?) && m.supply > 0 && m.exponent > 0 && Holding(m, from) + t > 0 && t <= t'
    ensures Swap(m, from, t).1 <= Swap(m, from, t').1
  {
    var to := if from.Ram? then Core else Ram;
    var x, y, s, n := Holding(m, from), Holding(m, to), m.supply, m.exponent;
    var e, e' := Issued(s, x + t, t, n), Issued(s, x + t', t', n);
    FitsMore(s, x, t, t', n, e);
    IssuedIff(s, x + t', t', n, e);
    var out := Released(s, y, e, n);
    ReleasedIff(s, y, e, n, out);
    PowMonotone(s + e, s + e', n);
    MulMonotone(y, y, Pow(s + e, n), Pow(s + e', n));
    ReleasedIff(s, y, e', n, out);
  }

  lemma {:induction false} FitsMore(s: nat, x: nat, t: nat, t': nat, n: nat, e: nat)
    requires x + t > 0 && t <= t' && Fits(s, x + t, t, n, e)
    ensures Fits(s, x + t', t', n, e)
  {
    var p, q := Pow(s, n), Pow(s + e, n);
    MulMonotone(q * (x + t), (x + t + t) * p, x + t', x + t');
    MulMonotone(x, x, t, t');
    Cross(x, t, t');
    MoreArith(x + t, x + t', x + t + t, x + t' + t', p, q);
  }

  lemma {:induction false} MulAssociates(a: nat, b: nat, c: nat)
    ensures a * b * c == a * (b * c)
  {
  }

  lemma {:induction false} SwapFactors(a: nat, b: nat, c: nat)
    ensures a * b * c == a * c * b
  {
  }

  lemma {:induction false} Cross(x: nat, t: nat, t': nat)
    requires x * t <= x * t'
    ensures (x + t + t) * (x + t') <= (x + t' + t') * (x + t)
  {
    assert (x + t + t) * (x + t') == x * x + x * t' + 2 * (x * t) + 2 * (t * t');
    assert (x + t' + t') * (x + t) == x * x + x * t + 2 * (x * t') + 2 * (t * t');
  }

  lemma {:induction false} MoreArith(a: nat, b: nat, u: nat, v: nat, p: nat, q: nat)
    requires a > 0 && q * a * b <= u * p * b && u * b <= v * a
    ensures q * b <= v * p
  {
    MulMonotone(u * b, v * a, p, p);
    SwapFactors(q, a, b);
    SwapFactors(u, p, b);
    SwapFactors(v, a, p);
    Cancel(q * b, v * p, a);
  }

  // ---------------------------------------------------------------- the payment from below

  /** Bernoulli's inequality, from below and from above. */
  lemma {:induction false} PowAtLeast(r: nat, e: nat, n: nat)
    ensures Pow(r, n) * (r + n * e) <= Pow(r + e, n) * r
  {
    if n > 0 {
      assert n * e == (n - 1) * e + e;
      PowAtLeast(r, e, n - 1);
      AtLeastStep(r, e, (n - 1) * e, Pow(r, n - 1), Pow(r + e, n - 1));
    }
  }

  lemma {:induction false} AtLeastStep(r: nat, e: nat, k: nat, p: nat, q: nat)
    requires p * (r + k) <= q * r
    ensures r * p * (r + (k + e)) <= (r + e) * q * r
  {
    var f, g := r + k, r + (k + e);
    MulMonotone(r + e, r + e, p * f, q * r);
    Rotate(r + e, p, f);
    SplitFactor(r, e, k);
    MulMonotone(p, p, r * g, (r + e) * f);
    Rotate(p, r, g);
    MulAssociates(r, p, g);
    MulAssociates(r + e, q, r);
  }

  lemma {:induction false} Rotate(a: int, b: int, c: int)
    ensures a * (b * c) == b * (a * c)
  {
  }

  lemma {:induction false} SplitFactor(r: nat, e: nat, k: nat)
    ensures r * (r + (k + e)) <= (r + e) * (r + k)
  {
    assert (r + e) * (r + k) == r * (r + (k + e)) + e * k;
  }

  lemma {:induction false} PowAtMost(r: nat, e: nat, n: nat)
    requires n * e <= r
    ensures Pow(r + e, n) * (r - n * e) <= Pow(r, n) * r
  {
    if n > 0 {
      assert n * e == (n - 1) * e + e;
      PowAtMost(r, e, n - 1);
      AtMostStep(r, e, (n - 1) * e, Pow(r, n - 1), Pow(r + e, n - 1));
    }
  }

  lemma {:induction false} AtMostStep(r: nat, e: nat, k: nat, p: nat, q: nat)
    requires k + e <= r && q * (r - k) <= p * r
    ensures (r + e) * q * (r - (k + e)) <= r * p * r
  {
    var f, g: nat := r - k, r - (k + e);
    JoinFactor(r, e, k);
    MulMonotone(q, q, (r + e) * g, r * f);
    Rotate(q, r + e, g);
    Rotate(q, r, f);
    MulMonotone(r, r, q * f, p * r);
    MulAssociates(r + e, q, g);
    MulAssociates(r, p, r);
  }

  lemma {:induction false} JoinFactor(r: nat, e: nat, k: nat)
    requires k + e <= r
    ensures (r + e) * (r - (k + e)) <= r * (r - k)
  {
    assert (r + e) * (r - (k + e)) == r * (r - k) - e * (k + e);
  }

  /** What certainly fits in the first leg. */
  lemma {:induction false} FitsFromBelow(r: nat, c: nat, t: nat, n: nat, e: nat)
    requires r > 0 && c > 0 && (c + t) * (n * e) <= t * r
    ensures Fits(r, c, t, n, e)
  {
    var k := n * e;
    MulMonotone(t, c + t, r, r);
    Cancel(k, r, c + t);
    PowAtMost(r, e, n);
    FitsCancel(r, c, t, k, Pow(r, n), Pow(r + e, n));
  }

  lemma {:induction false} FitsCancel(r: nat, c: nat, t: nat, k: nat, p: nat, q: nat)
    requires r > 0 && k <= r && (c + t) * k <= t * r && q * (r - k) <= p * r
    ensures q * c <= (c + t) * p
  {
    var f: nat := r - k;
    assert c * r <= (c + t) * f by { assert (c + t) * f == c * r + t * r - (c + t) * k; }
    MulMonotone(q, q, c * r, (c + t) * f);
    Rotate(q, c + t, f);
    MulMonotone(c + t, c + t, q * f, p * r);
    MulAssociates(q, c, r);
    MulAssociates(c + t, p, r);
    Cancel(q * c, (c + t) * p, r);
  }

  /** What the second leg certainly pays. */
  lemma {:induction false} ReleasedFromBelow(r: nat, c: nat, e: nat, n: nat, t: nat)
    requires r > 0 && t * r <= c * (n * e)
    ensures t <= Released(r, c, e, n)
  {
    PowAtLeast(r, e, n);
    ReleasedCancel(r, c, n * e, t, Pow(r, n), Pow(r + e, n));
    ReleasedIff(r, c, e, n, t);
  }

  lemma {:induction false} ReleasedCancel(r: nat, c: nat, k: nat, t: nat, p: nat, q: nat)
    requires r > 0 && t * r <= c * k && p * (r + k) <= q * r
    ensures (c + t) * p <= c * q
  {
    assert (c + t) * r <= c * (r + k) by { assert c * (r + k) == c * r + c * k && (c + t) * r == c * r + t * r; }
    MulMonotone(p, p, (c + t) * r, c * (r + k));
    Rotate(p, c, r + k);
    MulMonotone(c, c, p * (r + k), q * r);
    Rotate(p, c + t, r);
    MulAssociates(c + t, p, r);
    MulAssociates(c, q, r);
    Cancel((c + t) * p, c * q, r);
  }

  /** The swap pays at least Y*T/(X+2T), rounded down once in relay tokens and once in what is paid: the
      counterpart of the bound Y*T/(X+T) from above. */
  lemma {:induction false} SwapAtLeast(m: Market, from: Symbol, t: nat, e: nat, out: nat)
    requires (from.Ram? || from.Core?) && m.supply > 0 && m.exponent > 0 && Holding(m, from) + t > 0
    requires (Holding(m, from) + 2 * t) * (m.exponent * e) <= t * m.supply
    requires out * m.supply <= Holding(m, if from.Ram? then Core else Ram) * (m.exponent * e)
    ensures out <= Swap(m, from, t).1
  {
    hide Pow, Issued, Released, Fits;
    var to := if from.Ram? then Core else Ram;
    var c, y, s, n := Holding(m, from) + t, Holding(m, to), m.supply, m.exponent;
    var e' := Issued(s, c, t, n);
    FitsFromBelow(s, c, t, n, e);
    IssuedIff(s, c, t, n, e);
    ReleasedFromBelow(s, y, e, n, out);
    ReleasedMonotone(s, y, e, e', n);
  }

  lemma {:induction false} ReleasedMonotone(r: nat, c: nat, e: nat, e': nat, n: nat)
    requires r > 0 && e <= e'
    ensures Released(r, c, e, n) <= Released(r, c, e', n)
  {
    hide Pow, Released;
    var t := Released(r, c, e, n);
    ReleasedIff(r, c, e, n, t);
    PowMonotone(r + e, r + e', n);
    MulMonotone(c, c, Pow(r + e, n), Pow(r + e', n));
    ReleasedIff(r, c, e', n, t);
  }
}
