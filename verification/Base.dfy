/** Vocabulary shared by every component: account names, the outcome of an action, and
    finite sums over the keys of a table. */
module Base {

  /** account_name: a 64-bit base-32 encoded name. */
  type Name = n: int | 0 <= n < 0x1_0000_0000_0000_0000

  /** The empty name, used by the source for "no proxy". */
  const NO_NAME: Name := 0

  const SYSTEM: Name := 0x5526ea0000000000
  const STAKE: Name := 0x5526ea0319341400
  const RAM: Name := 0x5526ea02e6900000
  const RAMFEE: Name := 0x5526ea02e692d4a0
  const BPSTK: Name := 0x5526ea00f5c66000
  const PROP: Name := 0x5526ea02b7a54000
  const NAMES: Name := 0x5526ea026692b000
  const BLKPAY: Name := 0x5526ea00f1854de0
  const B1: Name := 0x3840000000000000

  const MICROS_PER_SECOND := 1_000_000
  const MICROS_PER_DAY := 24 * 3600 * 1_000_000

  /** `total_proposal_stake` below this keeps rewards, undelegation and claims switched off. */
  const MIN_PROPOSAL_STAKE := 1_000_000

  function Max(a: int, b: int): int { if a < b then b else a }

  function Abs(a: int): int { if a < 0 then -a else a }

  /** The failing `eosio_assert` of an aborted action. */
  datatype Failure =
    | InvalidSymbol | InvalidSupply | MaxSupplyNotPositive | SymbolExists | MemoTooLong
    | NoSuchToken | InvalidQuantity | QuantityNotPositive | PrecisionMismatch | ExceedsSupply
    | SelfTransfer | NoSuchAccount | NoBalance | Overdrawn | AssetOverflow
    | NothingStaked | OppositeSigns | InsufficientNet | InsufficientCpu
    | InsufficientTotalNet | InsufficientTotalCpu | NegativeStake | Vesting
    | NegativeAmount | SelfTransferStake | NotActivated | NoRefund | RefundTooEarly
    | BadBallot | NotStaked
    | ProxyUsesProxy | NoOldProxy | NoNewProxy | NotAProxy | ProducerInactive | ProducerMissing
    | NoEffect | NoSuchProposal | VoteClosed
    | InvalidSell | InvalidConversion | NoBytes | NoResources | InsufficientQuota
    | TooFewTokens | RamStakeNegative | RamNotIncreased | RamUnrealistic | RamBelowReserved
    | NotGnode | AlreadyGnode | NotEnded | ExecElapsed | AlreadyExecuted | IsProducer
    | OpenProposal | MissingAuthority | BadUrl | BadKey | BadConsensus | NotOwnAccount
    | ClaimTooEarly | BadName | AccountExists | AuctionClosed | BidTooLow | AlreadyHighest
    | NoBid | NotHighBidder | AuctionOpen | NotSuffix | RowExists
    | Expired | SameProposal | NotAuthorized | NotRequested | NotProvided | NotExpired

  /** An action either commits a new value or aborts, in which case the chain discards every
      write of the transaction. */
  datatype Outcome<+T> = Commit(value: T) | Abort(why: Failure) {
    predicate IsFailure() { Abort? }
    function PropagateFailure<U>(): Outcome<U>
      requires Abort?
    {
      Abort(why)
    }
    function Extract(): T
      requires Commit?
    {
      value
    }
  }

  /** `eosio_assert(condition, why)`. */
  datatype Check = Pass | Fail(why: Failure) {
    predicate IsFailure() { Fail? }
    function PropagateFailure<U>(): Outcome<U>
      requires Fail?
    {
      Abort(why)
    }
  }

  function Assert(condition: bool, why: Failure): Check {
    if condition then Pass else Fail(why)
  }

  // ---------------------------------------------------------------- division

  lemma {:induction false} DivUnique(t: nat, d: nat, q: nat, r: nat)
    requires d > 0 && t == q * d + r && r < d
    ensures t / d == q
  {
    MulStep(q, t / d, d);
    MulStep(t / d, q, d);
  }

  lemma {:induction false} MulStep(a: nat, b: nat, d: nat)
    ensures a < b ==> a * d + d <= b * d
  {
    if a < b { assert (a + 1) * d <= b * d; }
  }

  /** Dividing twice is dividing by the product. */
  lemma {:induction false} DivTwice(t: nat, p: nat, k: nat)
    requires p > 0 && k > 0
    ensures k * p > 0 && t / (k * p) == t / p / k
  {
    var q, r := t / p, t % p;
    var a, b := q / k, q % k;
    DivMod(t, p);
    DivMod(q, k);
    MulStep(0, k, p);
    Places(k, a, b, p);
    DivUnique(t, k * p, a, b * p + r);
  }

  lemma {:induction false} DivMod(t: nat, d: nat)
    requires d > 0
    ensures t == d * (t / d) + t % d && t == (t / d) * d + t % d
  {
  }

  lemma {:induction false} Places(k: nat, a: nat, b: nat, p: nat)
    requires b < k
    ensures (k * a + b) * p == a * (k * p) + b * p
    ensures b * p + p <= k * p
  {
    MulStep(b, k, p);
    assert (k * a) * p == a * (k * p);
  }

  // ---------------------------------------------------------------- sums over a table

  /** The sum of the values of a finite map. */
  ghost function Sum<K>(m: map<K, int>): int
    decreases m.Keys
  {
    if m == map[] then 0 else
      var k :| k in m;
      m[k] + Sum(m - {k})
  }

  /** The sum does not depend on the order in which keys are taken. */
  lemma {:induction false} SumRemove<K>(m: map<K, int>, x: K)
    requires x in m
    ensures Sum(m) == m[x] + Sum(m - {x})
    decreases m.Keys
  {
    var k :| k in m && Sum(m) == m[k] + Sum(m - {k});
    if k != x {
      SumRemove(m - {k}, x);
      SumRemove(m - {x}, k);
      assert m - {k} - {x} == m - {x} - {k};
    }
  }

  lemma {:induction false} SumWithout<K>(m: map<K, int>, x: K)
    ensures Sum(m) == (if x in m then m[x] else 0) + Sum(m - {x})
  {
    if x in m { SumRemove(m, x); } else { assert m - {x} == m; }
  }

  /** A map changed at one key only: the sum moves by the change at that key. */
  lemma {:induction false} SumChange<K>(m: map<K, int>, m': map<K, int>, x: K)
    requires forall k :: k != x ==> (k in m <==> k in m')
    requires forall k <- m :: k != x ==> m[k] == m'[k]
    ensures Sum(m') == Sum(m) - (if x in m then m[x] else 0) + (if x in m' then m'[x] else 0)
  {
    SumWithout(m, x);
    SumWithout(m', x);
    assert m - {x} == m' - {x};
  }

  lemma {:induction false} SumNonNegative<K>(m: map<K, int>)
    requires forall k <- m :: 0 <= m[k]
    ensures 0 <= Sum(m)
    decreases m.Keys
  {
    if m != map[] {
      var k :| k in m;
      SumRemove(m, k);
      SumNonNegative(m - {k});
    }
  }

  lemma {:induction false} SumZero<K>(m: map<K, int>)
    requires forall k <- m :: m[k] == 0
    ensures Sum(m) == 0
    decreases m.Keys
  {
    if m != map[] {
      var k :| k in m;
      SumRemove(m, k);
      SumZero(m - {k});
    }
  }

  /** Tables with the same keys add up key by key. */
  lemma {:induction false} SumAdd<K>(a: map<K, int>, b: map<K, int>, c: map<K, int>)
    requires a.Keys == b.Keys == c.Keys
    requires forall k <- a :: c[k] == a[k] + b[k]
    ensures Sum(c) == Sum(a) + Sum(b)
    decreases a.Keys
  {
    if a == map[] {
      assert b == map[] && c == map[];
    } else {
      var k :| k in a;
      SumRemove(a, k);
      SumRemove(b, k);
      SumRemove(c, k);
      SumAdd(a - {k}, b - {k}, c - {k});
    }
  }

  /** Every entry of a non-negative table is at most the sum. */
  lemma {:induction false} SumAtLeast<K>(m: map<K, int>, x: K)
    requires forall k <- m :: 0 <= m[k]
    ensures 0 <= Sum(m)
    ensures x in m ==> m[x] <= Sum(m)
  {
    SumNonNegative(m);
    if x in m {
      SumRemove(m, x);
      SumNonNegative(m - {x});
    }
  }

  /** Tables with the same keys: pointwise order gives the order of the sums. */
  lemma {:induction false} SumMonotone<K>(a: map<K, int>, b: map<K, int>)
    requires a.Keys == b.Keys
    requires forall k <- a :: a[k] <= b[k]
    ensures Sum(a) <= Sum(b)
    decreases a.Keys
  {
    if a == map[] {
      assert b == map[];
    } else {
      var k :| k in a;
      SumRemove(a, k);
      SumRemove(b, k);
      SumMonotone(a - {k}, b - {k});
    }
  }

  // ---------------------------------------------------------------- the same over reals

  /** The sum of the values of a finite map. */
  ghost function RSum<K>(m: map<K, real>): real
    decreases m.Keys
  {
    if m == map[] then 0.0 else
      var k :| k in m;
      m[k] + RSum(m - {k})
  }

  /** The sum does not depend on the order in which keys are taken. */
  lemma {:induction false} RSumRemove<K>(m: map<K, real>, x: K)
    requires x in m
    ensures RSum(m) == m[x] + RSum(m - {x})
    decreases m.Keys
  {
    var k :| k in m && RSum(m) == m[k] + RSum(m - {k});
    if k != x {
      RSumRemove(m - {k}, x);
      RSumRemove(m - {x}, k);
      assert m - {k} - {x} == m - {x} - {k};
    }
  }

  lemma {:induction false} RSumWithout<K>(m: map<K, real>, x: K)
    ensures RSum(m) == (if x in m then m[x] else 0.0) + RSum(m - {x})
  {
    if x in m { RSumRemove(m, x); } else { assert m - {x} == m; }
  }

  /** A map changed at one key only: the sum moves by the change at that key. */
  lemma {:induction false} RSumChange<K>(m: map<K, real>, m': map<K, real>, x: K)
    requires forall k :: k != x ==> (k in m <==> k in m')
    requires forall k <- m :: k != x ==> m[k] == m'[k]
    ensures RSum(m') == RSum(m) - (if x in m then m[x] else 0.0) + (if x in m' then m'[x] else 0.0)
  {
    RSumWithout(m, x);
    RSumWithout(m', x);
    assert m - {x} == m' - {x};
  }

  lemma {:induction false} RSumNonNegative<K>(m: map<K, real>)
    requires forall k <- m :: 0.0 <= m[k]
    ensures 0.0 <= RSum(m)
    decreases m.Keys
  {
    if m != map[] {
      var k :| k in m;
      RSumRemove(m, k);
      RSumNonNegative(m - {k});
    }
  }

  lemma {:induction false} RSumZero<K>(m: map<K, real>)
    requires forall k <- m :: m[k] == 0.0
    ensures RSum(m) == 0.0
    decreases m.Keys
  {
    if m != map[] {
      var k :| k in m;
      RSumRemove(m, k);
      RSumZero(m - {k});
    }
  }

  /** Tables with the same keys add up key by key. */
  lemma {:induction false} RSumAdd<K>(a: map<K, real>, b: map<K, real>, c: map<K, real>)
    requires a.Keys == b.Keys == c.Keys
    requires forall k <- a :: c[k] == a[k] + b[k]
    ensures RSum(c) == RSum(a) + RSum(b)
    decreases a.Keys
  {
    if a == map[] {
      assert b == map[] && c == map[];
    } else {
      var k :| k in a;
      RSumRemove(a, k);
      RSumRemove(b, k);
      RSumRemove(c, k);
      RSumAdd(a - {k}, b - {k}, c - {k});
    }
  }
}
