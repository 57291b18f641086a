/** The relay market and the RAM actions as the contract performs them in place. */
module RamContract {
  import opened Base
  import X = Exchange
  import opened Staking
  import R = RamMarket
  import SL = StakeLedger

  /** exchange_state. */
  class ExchangeState {
    var supply: nat
    var base: nat
    var quote: nat
    const exponent: nat

    ghost function Market(): X.Market
      reads this
    {
      X.Market(supply, base, quote, exponent)
    }

    constructor (supply: nat, base: nat, quote: nat, exponent: nat)
      ensures Market() == X.Market(supply, base, quote, exponent)
    {
      this.supply, this.base, this.quote, this.exponent := supply, base, quote, exponent;
    }

    /** convert_to_exchange on the connector of `s`. */
    method ConvertToExchange(s: X.Symbol, amount: nat) returns (issued: nat)
      requires (s.Ram? || s.Core?) && R.Live(Market()) && X.Holding(Market(), s) + amount > 0
      modifies this
      ensures (Market(), issued) == X.ToExchange(old(Market()), s, amount)
    {
      var c := (if s.Ram? then base else quote) + amount;
      issued := X.Issued(supply, c, amount, exponent);
      supply := supply + issued;
      if s.Ram? { base := base + amount; } else { quote := quote + amount; }
    }

    /** convert_from_exchange on the connector of `s`. */
    method ConvertFromExchange(s: X.Symbol, amount: nat) returns (out: int)
      requires (s.Ram? || s.Core?) && amount < supply
      requires X.Released(supply - amount, X.Holding(Market(), s), amount, exponent) <= X.Holding(Market(), s)
      modifies this
      ensures (Market(), out) == X.FromExchange(old(Market()), s, amount)
    {
      out := X.Released(supply - amount, if s.Ram? then base else quote, amount, exponent);
      supply := supply - amount;
      if s.Ram? { base := base - out; } else { quote := quote - out; }
    }

    /** convert, recursing on the changed state. */
    method Convert(amount: nat, from: X.Symbol, to: X.Symbol) returns (ok: bool, out: int)
      requires R.Live(Market())
      requires from.Ram? || from.Core? ==> X.Holding(Market(), from) + amount > 0
      requires from.Relay? && (to.Ram? || to.Core?) ==>
        amount < supply && X.Released(supply - amount, X.Holding(Market(), to), amount, exponent) <= X.Holding(Market(), to)
      modifies this
      ensures ok == X.Convert(old(Market()), amount, from, to).Commit?
      ensures ok ==> X.Convert(old(Market()), amount, from, to).value == (Market(), out)
      decreases if from.Relay? then 0 else 1
    {
      out := 0;
      if !from.Relay? {
        if !from.Ram? && !from.Core? { return false, 0; }
        ghost var m := Market();
        var issued := ConvertToExchange(from, amount);
        if to.Relay? { return true, issued; }
        if !to.Ram? && !to.Core? { return false, 0; }
        X.LegsFit(m, amount, from, to);
        ok, out := Convert(issued, X.Relay, to);
      } else {
        if !to.Ram? && !to.Core? { return false, 0; }
        out := ConvertFromExchange(to, amount);
        ok := true;
      }
    }
  }

  class RamContract {
    const ledger: SL.StakeLedger
    const exchange: ExchangeState
    var maxRam: nat
    var reserved: int
    var stake: int

    ghost function Ram(): R.State
      reads this, exchange
    {
      R.State(exchange.Market(), maxRam, reserved, stake)
    }

    constructor (ledger: SL.StakeLedger, exchange: ExchangeState)
      ensures this.ledger == ledger && this.exchange == exchange && reserved == 0 && stake == 0
      ensures maxRam == R.DEFAULT_MAX_RAM
    {
      this.ledger, this.exchange := ledger, exchange;
      maxRam, reserved, stake := R.DEFAULT_MAX_RAM, 0, 0;
    }

    method AddRam(owner: Name, bytes: int)
      modifies ledger`userres
      ensures ledger.Tables() == R.AddRam(old(ledger.Tables()), owner, bytes)
    {
      if owner !in ledger.userres {
        ledger.userres := ledger.userres[owner := Resources(0, 0, bytes)];
      } else {
        var r := ledger.userres[owner];
        ledger.userres := ledger.userres[owner := r.(ram := r.ram + bytes)];
      }
    }

    /** buyram. */
    method BuyRam(e: Env, payer: Name, receiver: Name, quant: int) returns (ok: bool)
      requires R.Live(exchange.Market())
      modifies this, exchange, ledger, ledger.token
      ensures ok == R.BuyRam(old(ledger.State()), old(Ram()), e, payer, receiver, quant).Commit?
      ensures ok ==> (ledger.State(), Ram()) == R.BuyRam(old(ledger.State()), old(Ram()), e, payer, receiver, quant).value
    {
      hide Pay, X.Swap, X.Convert, X.Holding;
      if quant <= 0 { return false; }
      var fee := (quant + 199) / 200;
      var paid := quant - fee;
      if paid <= 0 { return false; }
      ok := ledger.Send(e, payer, RAM, paid);
      if !ok { return; }
      if fee > 0 {
        ok := ledger.Send(e, payer, RAMFEE, fee);
        if !ok { return; }
      }
      Positive(exchange.Market(), X.Core, paid);
      X.ConvertIsSwap(exchange.Market(), paid, X.Core, X.Ram);
      var bytes;
      ok, bytes := exchange.Convert(paid, X.Core, X.Ram);
      if bytes <= 0 { return false; }
      reserved := reserved + bytes;
      stake := stake + paid;
      AddRam(receiver, bytes);
    }

    /** buyrambytes: the price comes from a conversion on a copy of the market row. */
    method BuyRamBytes(e: Env, payer: Name, receiver: Name, bytes: nat) returns (ok: bool)
      requires R.Live(exchange.Market()) && exchange.base + bytes > 0
      modifies this, exchange, ledger, ledger.token
      ensures ok == R.BuyRamBytes(old(ledger.State()), old(Ram()), e, payer, receiver, bytes).Commit?
      ensures ok ==> (ledger.State(), Ram()) == R.BuyRamBytes(old(ledger.State()), old(Ram()), e, payer, receiver, bytes).value
    {
      hide R.BuyRam, X.Swap, X.Convert;
      var tmp := new ExchangeState(exchange.supply, exchange.base, exchange.quote, exchange.exponent);
      X.ConvertIsSwap(tmp.Market(), bytes, X.Ram, X.Core);
      var priced, price := tmp.Convert(bytes, X.Ram, X.Core);
      ok := BuyRam(e, payer, receiver, price);
    }

    /** sellram. */
    method SellRam(e: Env, account: Name, bytes: int) returns (ok: bool)
      requires R.Live(exchange.Market())
      modifies this, exchange, ledger, ledger.token
      ensures ok == R.SellRam(old(ledger.State()), old(Ram()), e, account, bytes).Commit?
      ensures ok ==> (ledger.State(), Ram()) == R.SellRam(old(ledger.State()), old(Ram()), e, account, bytes).value
    {
      hide Pay, X.Swap, X.Convert, X.Holding;
      if bytes <= 0 || account !in ledger.userres || ledger.userres[account].ram < bytes { return false; }
      Positive(exchange.Market(), X.Ram, bytes);
      X.ConvertIsSwap(exchange.Market(), bytes, X.Ram, X.Core);
      var tokens;
      ok, tokens := exchange.Convert(bytes, X.Ram, X.Core);
      if tokens <= 1 { return false; }
      reserved := reserved - bytes;
      stake := stake - tokens;
      if stake < 0 { return false; }
      AddRam(account, -bytes);
      ok := ledger.Send(e, RAM, account, tokens);
      if !ok { return; }
      var fee := (tokens + 199) / 200;
      if fee > 0 { ok := ledger.Send(e, account, RAMFEE, fee); }
    }

    /** setram. */
    method SetRam(size: nat) returns (ok: bool)
      modifies this`maxRam, exchange`base
      ensures ok == R.SetRam(old(Ram()), size).Commit?
      ensures ok ==> Ram() == R.SetRam(old(Ram()), size).value
    {
      if !(maxRam < size) || !(size < 1024 * 1024 * 1024 * 1024 * 1024) || !(size > reserved) { return false; }
      exchange.base := exchange.base + (size - maxRam);
      maxRam := size;
      return true;
    }
  }

  lemma {:induction false} Positive(m: X.Market, s: X.Symbol, amount: nat)
    requires (s.Ram? || s.Core?) && amount > 0
    ensures X.Holding(m, s) + amount > 0
  {
  }
}
