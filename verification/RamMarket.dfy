/** Buying and selling RAM: buyram, buyrambytes, sellram and setram over the relay market, the users'
    RAM quotas and the token balances. */
module RamMarket {
  import opened Base
  import X = Exchange
  import opened Staking

  /** The market row and the RAM fields of the global state. */
  datatype State = State(market: X.Market, maxRam: nat, reserved: int, stake: int)

  const DEFAULT_MAX_RAM := 64 * 1024 * 1024 * 1024

  /** The market as the contract opens it for a core token supply of `supply`. */
  function Opened(supply: nat): State {
    State(X.Market(100_000_000_000_000, DEFAULT_MAX_RAM, supply / 1000, 2000), DEFAULT_MAX_RAM, 0, 0)
  }

  predicate Live(m: X.Market) { m.supply > 0 && m.exponent > 0 }

  /** Half a percent, rounded up. */
  function Fee(amount: int): int { (amount + 199) / 200 }

  function AddRam(l: Ledger, owner: Name, bytes: int): Ledger {
    var r := ResourcesOf(l.userres, owner);
    l.(userres := l.userres[owner := r.(ram := r.ram + bytes)])
  }

  /** buyram. A one-unit purchase is all fee: its transfer of nothing fails. */
  function BuyRam(c: Core, s: State, e: Env, payer: Name, receiver: Name, quant: int): Outcome<(Core, State)>
    requires Live(s.market)
  {
    if quant <= 0 then Abort(QuantityNotPositive) else
    var fee := Fee(quant);
    var paid := quant - fee;
    :- Assert(paid > 0, QuantityNotPositive);
    var t1 :- Pay(c.token, e, payer, RAM, paid);
    var t2 :- if fee > 0 then Pay(t1, e, payer, RAMFEE, fee) else Commit(t1);
    var (market, bytes) := X.Swap(s.market, X.Core, paid);
    :- Assert(bytes > 0, NoBytes);
    Commit((c.(token := t2, ledger := AddRam(c.ledger, receiver, bytes)),
            s.(market := market, reserved := s.reserved + bytes, stake := s.stake + paid)))
  }

  /** buyrambytes: prices the bytes by selling them on a copy of the market, then buys for that. */
  function BuyRamBytes(c: Core, s: State, e: Env, payer: Name, receiver: Name, bytes: nat): Outcome<(Core, State)>
    requires Live(s.market) && s.market.base + bytes > 0
  {
    BuyRam(c, s, e, payer, receiver, X.Swap(s.market, X.Ram, bytes).1)
  }

  /** sellram. */
  function SellRam(c: Core, s: State, e: Env, account: Name, bytes: int): Outcome<(Core, State)>
    requires Live(s.market)
  {
    if bytes <= 0 then Abort(NoBytes) else
    :- Assert(account in c.ledger.userres, NoResources);
    :- Assert(c.ledger.userres[account].ram >= bytes, InsufficientQuota);
    var (market, tokens) := X.Swap(s.market, X.Ram, bytes);
    :- Assert(tokens > 1, TooFewTokens);
    :- Assert(s.stake - tokens >= 0, RamStakeNegative);
    var t1 :- Pay(c.token, e, RAM, account, tokens);
    var fee := Fee(tokens);
    var t2 :- if fee > 0 then Pay(t1, e, account, RAMFEE, fee) else Commit(t1);
    Commit((c.(token := t2, ledger := AddRam(c.ledger, account, -bytes)),
            s.(market := market, reserved := s.reserved - bytes, stake := s.stake - tokens)))
  }

  /** setram. */
  function SetRam(s: State, maxRam: nat): Outcome<State> {
    if maxRam <= s.maxRam then Abort(RamNotIncreased) else
    :- Assert(maxRam < 1024 * 1024 * 1024 * 1024 * 1024, RamUnrealistic);
    :- Assert(maxRam > s.reserved, RamBelowReserved);
    Commit(s.(market := s.market.(base := s.market.base + (maxRam - s.maxRam)), maxRam := maxRam))
  }
}
