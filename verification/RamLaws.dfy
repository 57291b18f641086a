/** What the RAM market keeps over every interleaving of purchases, sales and enlargements. */
module RamLaws {
  import opened Base
  import Token
  import X = Exchange
  import opened Staking
  import opened StakingLaws
  import opened RamMarket
  import opened Votes
  import Polls

  ghost function RamColumn(userres: map<Name, Resources>): map<Name, int> { map r | r in userres :: userres[r].ram }

  /** All quotas add up to what is reserved, reserved and unsold RAM to the maximum; the quote balance is
      the opening balance plus all tokens staked; and the product of the two balances is at least the
      opening quote times the maximum. */
  ghost predicate RamSound(s: State, userres: map<Name, Resources>, opening: nat) {
    && Live(s.market)
    && 0 <= s.reserved && s.market.base == s.maxRam - s.reserved
    && (forall r <- userres :: 0 <= userres[r].ram)
    && Sum(RamColumn(userres)) == s.reserved
    && 0 <= s.stake && s.market.quote == opening + s.stake
    && opening * s.maxRam <= s.market.base * s.market.quote
  }

  lemma {:induction false} OpenedSound(supply: nat)
    ensures RamSound(Opened(supply), map[], supply / 1000)
  {
    hide Sum;
    SumZero(RamColumn(map[]));
    var q, m := supply / 1000, DEFAULT_MAX_RAM;
    assert q * m == m * q;
  }

  lemma {:induction false} RamRow(userres: map<Name, Resources>, userres': map<Name, Resources>, r: Name)
    requires forall x :: x != r ==> (x in userres <==> x in userres')
    requires forall x <- userres :: x != r ==> userres[x] == userres'[x]
    ensures Sum(RamColumn(userres')) == Sum(RamColumn(userres)) + ResourcesOf(userres', r).ram - ResourcesOf(userres, r).ram
  {
    hide Sum;
    SumChange(RamColumn(userres), RamColumn(userres'), r);
  }

  lemma {:induction false} QuotaWithinReserved(s: State, userres: map<Name, Resources>, opening: nat, r: Name)
    requires RamSound(s, userres, opening) && r in userres
    ensures userres[r].ram <= s.reserved
  {
    hide Sum;
    SumAtLeast(RamColumn(userres), r);
  }

  /** The quote balance never falls below what the market opened with, so the tokens staked are never
      negative: the product bound at work. */
  lemma {:induction false} StakeStaysPositive(opening: nat, maxRam: nat, base: nat, quote: nat)
    requires opening * maxRam <= base * quote && 0 < base <= maxRam
    ensures opening <= quote
  {
    X.MulMonotone(opening, opening, base, maxRam);
    assert base * quote == quote * base;
    X.Cancel(opening, quote, base);
  }

  lemma {:induction false} BuyRamSound(c: Core, s: State, e: Env, payer: Name, receiver: Name, quant: int, opening: nat)
    requires RamSound(s, c.ledger.userres, opening)
    ensures var r := BuyRam(c, s, e, payer, receiver, quant);
      r.Commit? ==> RamSound(r.value.1, r.value.0.ledger.userres, opening)
  {
    hide Sum, Pay;
    var r := BuyRam(c, s, e, payer, receiver, quant);
    if r.Commit? {
      RamRow(c.ledger.userres, r.value.0.ledger.userres, receiver);
      X.SwapKeepsProduct(s.market, X.Core, quant - Fee(quant));
    }
  }

  /** The assert that guards against a negative stake cannot fire. */
  lemma {:induction false} SellNeverOverdraws(c: Core, s: State, account: Name, bytes: int, opening: nat)
    requires RamSound(s, c.ledger.userres, opening)
    requires bytes > 0 && account in c.ledger.userres && c.ledger.userres[account].ram >= bytes
    ensures X.Swap(s.market, X.Ram, bytes).1 <= s.stake
  {
    hide Sum;
    QuotaWithinReserved(s, c.ledger.userres, opening, account);
    var m := X.Swap(s.market, X.Ram, bytes).0;
    X.SwapKeepsProduct(s.market, X.Ram, bytes);
    StakeStaysPositive(opening, s.maxRam, m.base, m.quote);
  }

  lemma {:induction false} SellRamSound(c: Core, s: State, e: Env, account: Name, bytes: int, opening: nat)
    requires RamSound(s, c.ledger.userres, opening)
    ensures var r := SellRam(c, s, e, account, bytes);
      && (r.Commit? ==> RamSound(r.value.1, r.value.0.ledger.userres, opening))
      && r != Abort(RamStakeNegative)
  {
    hide Sum, Pay;
    var r := SellRam(c, s, e, account, bytes);
    if bytes > 0 && account in c.ledger.userres && c.ledger.userres[account].ram >= bytes {
      SellNeverOverdraws(c, s, account, bytes, opening);
      QuotaWithinReserved(s, c.ledger.userres, opening, account);
      X.SwapKeepsProduct(s.market, X.Ram, bytes);
      if r.Commit? { RamRow(c.ledger.userres, r.value.0.ledger.userres, account); }
    }
    PayNeverStake(c.token, e);
  }

  /** No transfer fails with the RAM market's own assert. */
  lemma {:induction false} PayNeverStake(t: Token.State, e: Env)
    ensures forall t': Token.State, from: Name, to: Name, amount: int :: Pay(t', e, from, to, amount) != Abort(RamStakeNegative)
  {
  }

  lemma {:induction false} SetRamSound(s: State, userres: map<Name, Resources>, maxRam: nat, opening: nat)
    requires RamSound(s, userres, opening)
    ensures var r := SetRam(s, maxRam); r.Commit? ==> RamSound(r.value, userres, opening)
  {
    hide Sum;
    if SetRam(s, maxRam).Commit? {
      var d := maxRam - s.maxRam;
      X.MulMonotone(opening, s.market.quote, d, d);
      assert (s.market.base + d) * s.market.quote == s.market.base * s.market.quote + s.market.quote * d;
      assert opening * (s.maxRam + d) == opening * s.maxRam + opening * d;
    }
  }

  /** setram commits exactly for a larger size below 2^50 bytes: the assert on the bytes reserved cannot fire. What is
      added is for sale, and nothing else changes. */
  lemma {:induction false} SetRamIff(s: State, userres: map<Name, Resources>, maxRam: nat, opening: nat)
    requires RamSound(s, userres, opening)
    ensures var r := SetRam(s, maxRam);
      && (r.Commit? <==> s.maxRam < maxRam < 0x4_0000_0000_0000)
      && (r.Commit? ==>
            && r.value.maxRam == maxRam && r.value.market.base - s.market.base == maxRam - s.maxRam
            && r.value.reserved == s.reserved && r.value.stake == s.stake && r.value.market.quote == s.market.quote
            && r.value.market.supply == s.market.supply && r.value.market.exponent == s.market.exponent)
  {
    hide Sum;
  }

  /** RAM quotas do not touch the staking side of the resource rows. */
  lemma {:induction false} AddRamKeepsLedger(l: Ledger, voters: map<Name, Voter>, owner: Name, bytes: int)
    requires LedgerSound(l, voters)
    ensures LedgerSound(AddRam(l, owner, bytes), voters)
  {
    hide Sum;
    var l' := AddRam(l, owner, bytes);
    forall r: Name ensures ReceiverSound(l', r) { assert ReceiverSound(l, r); }
    forall f: Name ensures GiverSound(l'.delband, voters, f) { assert GiverSound(l.delband, voters, f); }
  }

  // ---------------------------------------------------------------- the RAM account covers the stake

  /** What the RAM account holds beyond the tokens staked in the market. */
  function RamSlack(t: Token.State, s: State): int { Funds(t, RAM) - s.stake }

  lemma {:induction false} BuyRamTokens(c: Core, s: State, e: Env, payer: Name, receiver: Name, quant: int)
    requires Token.Sound(c.token) && Live(s.market)
    ensures var r := BuyRam(c, s, e, payer, receiver, quant);
      r.Commit? ==>
        && Token.Sound(r.value.0.token) && r.value.0.token.stats == c.token.stats && payer != RAM && payer != RAMFEE
        && RamSlack(r.value.0.token, r.value.1) == RamSlack(c.token, s)
        && forall o: Name {:trigger Funds(r.value.0.token, o)} :: o != payer ==> Funds(r.value.0.token, o) >= Funds(c.token, o)
  {
    hide Pay, Token.Sound;
    var r := BuyRam(c, s, e, payer, receiver, quant);
    if r.Commit? {
      var fee := Fee(quant);
      PayEffect(c.token, e, payer, RAM, quant - fee);
      var t1 := Pay(c.token, e, payer, RAM, quant - fee).value;
      PayEffect(t1, e, payer, RAMFEE, fee);
    }
  }

  lemma {:induction false} SellRamTokens(c: Core, s: State, e: Env, account: Name, bytes: int)
    requires Token.Sound(c.token) && Live(s.market)
    ensures var r := SellRam(c, s, e, account, bytes);
      r.Commit? ==>
        && Token.Sound(r.value.0.token) && r.value.0.token.stats == c.token.stats && account != RAM && account != RAMFEE
        && RamSlack(r.value.0.token, r.value.1) == RamSlack(c.token, s)
        && forall o: Name {:trigger Funds(r.value.0.token, o)} :: o != RAM ==> Funds(r.value.0.token, o) >= Funds(c.token, o)
  {
    hide Pay, Token.Sound;
    var r := SellRam(c, s, e, account, bytes);
    if r.Commit? {
      var tokens := X.Swap(s.market, X.Ram, bytes).1;
      PayEffect(c.token, e, RAM, account, tokens);
      PayEffect(Pay(c.token, e, RAM, account, tokens).value, e, account, RAMFEE, Fee(tokens));
    }
  }

  /** As long as the RAM account covers the stake, holders can always sell: sellram commits exactly when
      the quota suffices, the price is more than one unit, and the seller is neither of the two fee
      accounts. */
  lemma {:induction false} SellRamIff(c: Core, s: State, e: Env, account: Name, bytes: int, opening: nat)
    requires RamSound(s, c.ledger.userres, opening) && Token.Sound(c.token) && CoreLive(c.token)
    requires Live(s.market) && RamSlack(c.token, s) >= 0 && RAMFEE in e.accounts && account in e.accounts
    ensures SellRam(c, s, e, account, bytes).Commit? <==>
      && bytes > 0 && account in c.ledger.userres && bytes <= c.ledger.userres[account].ram
      && X.Swap(s.market, X.Ram, bytes).1 > 1 && account != RAM && account != RAMFEE
  {
    hide Pay, Token.Sound, RamSound, X.Swap, X.Holding;
    if bytes > 0 && account in c.ledger.userres && bytes <= c.ledger.userres[account].ram {
      SellNeverOverdraws(c, s, account, bytes, opening);
      var tokens := X.Swap(s.market, X.Ram, bytes).1;
      FundsNonNegative(c.token, account);
      PayEffect(c.token, e, RAM, account, tokens);
      if Pay(c.token, e, RAM, account, tokens).Commit? {
        PayEffect(Pay(c.token, e, RAM, account, tokens).value, e, account, RAMFEE, Fee(tokens));
      }
    }
  }

  // ---------------------------------------------------------------- buyrambytes

  lemma {:induction false} Undershoots(x: nat, y: nat, b: nat, price: nat, paid: nat, got: nat)
    requires b > 0 && 0 < paid <= price
    requires price * (x + b) <= y * b && got * (y + paid) <= x * paid
    ensures got < b
  {
    if b <= got {
      X.MulMonotone(b, got, y + paid, y + paid);
      X.MulMonotone(paid, price, x + b, x + b);
      assert b * (y + paid) == y * b + b * paid;
      assert paid * (x + b) == x * paid + b * paid;
      X.MulPositive(b, paid);
    }
  }

  /** buyrambytes is documented to buy an exact amount. It never does: the bytes are priced as if they
      were sold, so every committed purchase delivers fewer than requested, fee or no fee. */
  lemma {:induction false} BytesNeverExact(c: Core, s: State, e: Env, payer: Name, receiver: Name, bytes: nat)
    requires Live(s.market) && s.market.base + bytes > 0
    ensures var r := BuyRamBytes(c, s, e, payer, receiver, bytes);
      r.Commit? ==>
        ResourcesOf(r.value.0.ledger.userres, receiver).ram - ResourcesOf(c.ledger.userres, receiver).ram < bytes
  {
    hide BuyRam, X.Swap, ResourcesOf;
    var price := X.Swap(s.market, X.Ram, bytes).1;
    if BuyRamBytes(c, s, e, payer, receiver, bytes).Commit? {
      var paid := price - Fee(price);
      BuyRamBuys(c, s, e, payer, receiver, price);
      RamPrice(s.market, bytes);
      CorePrice(s.market, paid);
      Undershoots(s.market.base, s.market.quote, bytes, price, paid, X.Swap(s.market, X.Core, paid).1);
    }
  }

  /** What a purchase delivers is what the market gives for the price less the fee. */
  lemma {:induction false} BuyRamBuys(c: Core, s: State, e: Env, payer: Name, receiver: Name, quant: int)
    requires Live(s.market)
    ensures var r := BuyRam(c, s, e, payer, receiver, quant);
      r.Commit? ==>
        && 0 < quant - Fee(quant) < quant
        && ResourcesOf(r.value.0.ledger.userres, receiver).ram
           == ResourcesOf(c.ledger.userres, receiver).ram + X.Swap(s.market, X.Core, quant - Fee(quant)).1
  {
    hide Pay, X.Swap;
  }

  lemma {:induction false} RamPrice(m: X.Market, bytes: nat)
    requires Live(m) && m.base + bytes > 0
    ensures X.Swap(m, X.Ram, bytes).1 * (m.base + bytes) <= m.quote * bytes
    ensures bytes == 0 ==> X.Swap(m, X.Ram, bytes).1 == 0
  {
    var price := X.Swap(m, X.Ram, bytes).1;
    if price > 0 { X.MulPositive(price, m.base + bytes); }
  }

  lemma {:induction false} CorePrice(m: X.Market, paid: nat)
    requires Live(m) && paid > 0
    ensures X.Swap(m, X.Core, paid).1 * (m.quote + paid) <= m.base * paid
  {
  }

  // ---------------------------------------------------------------- fees

  /** The fee is the smallest whole amount that is at least half a percent. */
  lemma {:induction false} FeeIsHalfPercent(amount: nat)
    ensures 200 * Fee(amount) >= amount > 200 * (Fee(amount) - 1)
  {
  }

  /** A purchase costs exactly its price: the fee goes to the fee account, the rest to the RAM account. */
  lemma {:induction false} BuyRamPays(c: Core, s: State, e: Env, payer: Name, receiver: Name, quant: int)
    requires Token.Sound(c.token) && Live(s.market)
    ensures var r := BuyRam(c, s, e, payer, receiver, quant);
      r.Commit? ==>
        forall o: Name {:trigger Funds(r.value.0.token, o)} ::
          Funds(r.value.0.token, o) == Funds(c.token, o) + (if o == RAM then quant - Fee(quant) else 0)
                                       + (if o == RAMFEE then Fee(quant) else 0) - (if o == payer then quant else 0)
  {
    hide Pay, X.Swap, Token.Sound, Funds;
    if BuyRam(c, s, e, payer, receiver, quant).Commit? {
      PayEffect(c.token, e, payer, RAM, quant - Fee(quant));
      PayEffect(Pay(c.token, e, payer, RAM, quant - Fee(quant)).value, e, payer, RAMFEE, Fee(quant));
    }
  }

  /** buyram commits exactly when more than one unit is offered, the payer has it and is neither of the two
      fee accounts, and the market gives at least one byte for the offer less the fee. */
  lemma {:induction false} BuyRamIff(c: Core, s: State, e: Env, payer: Name, receiver: Name, quant: int)
    requires Live(s.market) && Token.Sound(c.token) && CoreLive(c.token) && RAM in e.accounts && RAMFEE in e.accounts
    ensures BuyRam(c, s, e, payer, receiver, quant).Commit? <==>
      && 1 < quant <= Funds(c.token, payer) && payer != RAM && payer != RAMFEE
      && X.Swap(s.market, X.Core, quant - Fee(quant)).1 > 0
  {
    hide Pay, X.Swap, Token.Sound, Funds;
    if quant > 0 {
      PayEffect(c.token, e, payer, RAM, quant - Fee(quant));
      var paid := Pay(c.token, e, payer, RAM, quant - Fee(quant));
      if paid.Commit? { PayEffect(paid.value, e, payer, RAMFEE, Fee(quant)); }
    }
  }

  /** A sale pays what the market gives less the fee. */
  lemma {:induction false} SellRamPays(c: Core, s: State, e: Env, account: Name, bytes: int)
    requires Token.Sound(c.token) && Live(s.market)
    ensures var r := SellRam(c, s, e, account, bytes);
      r.Commit? ==>
        var t, price := r.value.0.token, s.stake - r.value.1.stake;
        forall o: Name {:trigger Funds(t, o)} ::
          Funds(t, o) == Funds(c.token, o) - (if o == RAM then price else 0)
                         + (if o == RAMFEE then Fee(price) else 0) + (if o == account then price - Fee(price) else 0)
  {
    hide Pay, X.Swap, Token.Sound, Funds;
    if SellRam(c, s, e, account, bytes).Commit? {
      var price := X.Swap(s.market, X.Ram, bytes).1;
      PayEffect(c.token, e, RAM, account, price);
      PayEffect(Pay(c.token, e, RAM, account, price).value, e, account, RAMFEE, Fee(price));
    }
  }

  // ---------------------------------------------------------------- a purchase by bytes, in numbers

  /** A thousand million tokens of four decimals. */
  const SUPPLY := 10_000_000_000_000

  /** Account 6 holds them all. */
  const BUYER := Core(Token.State(map[Token.CORE.code := Token.Stat(Token.Asset(SUPPLY, Token.CORE), Token.Asset(SUPPLY, Token.CORE), 6)],
                                  map[(6, Token.CORE.code) := Token.Asset(SUPPLY, Token.CORE)]),
                      Ledger(map[], map[], map[], map[]), Book(map[], map[], 0.0), Polls.Tables(map[], map[], 0, 0), 0)

  /** On the market as the contract opens it, a million bytes are priced at 145514 units or a little more;
      that purchase commits and delivers more than 994000 bytes, but not the million. */
  lemma {:induction false} BytesFallShort()
    ensures var e, s := Env({6, RAM, RAMFEE}, 0, 1.0), Opened(SUPPLY);
      && RamSound(s, map[], SUPPLY / 1000)
      && var r := BuyRamBytes(BUYER, s, e, 6, 6, 1_000_000);
         r.Commit? && 994_000 < ResourcesOf(r.value.0.ledger.userres, 6).ram < 1_000_000
  {
    hide BuyRam, Token.Sound, Funds, CoreLive, X.Swap, RamSound;
    var e, s := Env({6, RAM, RAMFEE}, 0, 1.0), Opened(SUPPLY);
    OpenedSound(SUPPLY);
    var m := s.market;
    assert m == X.Market(100_000_000_000_000, 68_719_476_736, 10_000_000_000, 2000);
    var price := X.Swap(m, X.Ram, 1_000_000).1;
    X.SwapAtLeast(m, X.Ram, 1_000_000, 727_574, 145_514);
    RamPrice(m, 1_000_000);
    assert price <= 145_518;
    var paid := price - Fee(price);
    X.SwapAtLeast(m, X.Core, 144_786, 723_909, 994_932);
    X.SwapMonotone(m, X.Core, 144_786, paid);
    BuyerSound();
    BuyRamIff(BUYER, s, e, 6, 6, price);
    BuyRamBuys(BUYER, s, e, 6, 6, price);
    BytesNeverExact(BUYER, s, e, 6, 6, 1_000_000);
  }

  lemma {:induction false} BuyerSound()
    ensures Token.Sound(BUYER.token) && CoreLive(BUYER.token) && Funds(BUYER.token, 6) == SUPPLY
  {
    hide Sum;
    var t, k: (Name, string) := BUYER.token, (6, Token.CORE.code);
    var column := Token.Column(t, Token.CORE.code);
    assert column.Keys == {k};
    SumRemove(column, k);
    SumZero(column - {k});
    assert forall c <- t.stats :: Token.StatSound(t, c);
    assert forall x <- t.accounts :: Token.RowSound(t, x);
  }
}
