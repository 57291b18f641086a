/** The weight of a stake in proposal votes: the digit-dropping loop of stake_to_proposal_votes. */
module VoteWeight {
  import opened Base

  /** Integer division of the source language: truncation towards zero. */
  function Trunc(a: int, b: int): int
    requires b > 0
  {
    if a >= 0 then a / b else -((-a) / b)
  }

  /** n/10 + n/100 + n/1000 + ... */
  function Tenths(n: nat): nat { if n == 0 then 0 else n / 10 + Tenths(n / 10) }

  function DigitSum(n: nat): nat { if n == 0 then 0 else n % 10 + DigitSum(n / 10) }

  /** stake_to_proposal_votes, for any stored amount. */
  function Weight(staked: int): int {
    if staked >= 0 then Tenths(staked / 100000) else 0 - Tenths((-staked) / 100000)
  }

  /** The loop computes the weight, negative amounts included. */
  method StakeToProposalVotes(staked: int) returns (ret: int)
    ensures ret == Weight(staked)
  {
    ret := 0;
    var n := Trunc(staked, 100000);
    while n != 0
      invariant ret + (if n >= 0 then Tenths(n) else 0 - Tenths(-n)) == Weight(staked)
      decreases if n >= 0 then n else -n
    {
      ret := ret + Trunc(n, 10);
      n := Trunc(n, 10);
    }
  }

  /** In closed form: a stake of n tens of tokens weighs a ninth of n minus its decimal digit sum. */
  lemma {:induction false} TenthsClosedForm(n: nat)
    ensures 9 * Tenths(n) == n - DigitSum(n)
  {
    if n > 0 { TenthsClosedForm(n / 10); }
  }

  lemma {:induction false} WeightClosedForm(staked: nat)
    ensures 9 * Weight(staked) == staked / 100000 - DigitSum(staked / 100000)
    ensures 0 <= Weight(staked)
  {
    TenthsClosedForm(staked / 100000);
  }

  /** The sum t/100 + t/1000 + ... that the source documents for t tokens, from the term t/p on. */
  function Documented(t: nat, p: nat): nat
    requires p > 0
    decreases t / p
  {
    if t / p == 0 then 0 else (NextTerm(t, p); t / p + Documented(t, 10 * p))
  }

  lemma {:induction false} NextTerm(t: nat, p: nat)
    requires p > 0
    ensures t / (10 * p) == t / p / 10
  {
    DivTwice(t, p, 10);
  }

  /** The loop agrees with the documented series: 10000 units are one token. */
  lemma {:induction false} WeightIsDocumented(staked: nat)
    ensures Weight(staked) == Documented(staked / 10000, 100)
  {
    NextTerm(staked, 10000);
    TenthsIsSeries(staked / 10000, 10);
  }

  lemma {:induction false} TenthsIsSeries(t: nat, p: nat)
    requires p > 0
    ensures Tenths(t / p) == Documented(t, 10 * p)
    decreases t / p
  {
    hide Tenths, Documented;
    NextTerm(t, p);
    if t / p > 0 {
      QuotientsAdd(t / p, 0);
      TenthsIsSeries(t, 10 * p);
      TenthsUnfold(t / p);
      DocumentedUnfold(t, 10 * p);
    } else {
      NoTenths(t, 10 * p);
    }
  }

  lemma {:induction false} DocumentedUnfold(t: nat, p: nat)
    requires p > 0
    ensures Documented(t, p) == t / p + Documented(t, 10 * p)
  {
    NextTerm(t, p);
  }

  lemma {:induction false} NoTenths(t: nat, p: nat)
    requires p > 0 && t / p == 0
    ensures Tenths(0) == 0 && Documented(t, p) == 0
  {
  }

  lemma {:induction false} TenthsMonotone(a: nat, b: nat)
    requires a <= b
    ensures Tenths(a) <= Tenths(b)
  {
    if a > 0 { TenthsMonotone(a / 10, b / 10); }
  }

  lemma {:induction false} TenthsSuperadditive(a: nat, b: nat)
    ensures Tenths(a) + Tenths(b) <= Tenths(a + b)
    decreases a + b, 0
  {
    if a > 0 && b > 0 {
      hide Tenths;
      QuotientsAdd(a, b);
      TenthsWithin(a / 10, b / 10, (a + b) / 10);
      TenthsUnfold(a);
      TenthsUnfold(b);
      TenthsUnfold(a + b);
    }
  }

  lemma {:induction false} TenthsWithin(p: nat, q: nat, s: nat)
    requires p + q <= s
    ensures Tenths(p) + Tenths(q) <= Tenths(s)
    decreases p + q, 1
  {
    hide Tenths;
    TenthsSuperadditive(p, q);
    TenthsMonotone(p + q, s);
  }

  lemma {:induction false} TenthsUnfold(n: nat)
    ensures Tenths(n) == n / 10 + Tenths(n / 10)
  {
  }

  lemma {:induction false} QuotientsAdd(a: nat, b: nat)
    ensures a / 10 + b / 10 <= (a + b) / 10
    ensures a > 0 ==> a / 10 < a
    ensures b > 0 ==> b / 10 < b
  {
  }

  /** More stake never weighs less. */
  lemma {:induction false} WeightMonotone(a: nat, b: nat)
    requires a <= b
    ensures Weight(a) <= Weight(b)
  {
    TenthsMonotone(a / 100000, b / 100000);
  }

  lemma {:induction false} WeightSuperadditive(a: nat, b: nat)
    ensures Weight(a) + Weight(b) <= Weight(a + b)
  {
    var p, q := a / 100000, b / 100000;
    TenthsSuperadditive(p, q);
    TenthsMonotone(p + q, (a + b) / 100000);
  }

  function TotalStake(parts: seq<nat>): nat {
    if parts == [] then 0 else parts[0] + TotalStake(parts[1..])
  }

  function TotalWeight(parts: seq<nat>): int {
    if parts == [] then 0 else Weight(parts[0]) + TotalWeight(parts[1..])
  }

  /** Splitting a stake over any number of accounts never gains votes. */
  lemma {:induction false} SplittingNeverGains(parts: seq<nat>)
    ensures TotalWeight(parts) <= Weight(TotalStake(parts))
  {
    if parts != [] {
      SplittingNeverGains(parts[1..]);
      WeightSuperadditive(parts[0], TotalStake(parts[1..]));
    }
  }
}
