/** The token contract as a class over its tables. */
module TokenContract {
  import opened Base
  import opened Token

  /** The contract's tables. When `ok` is false an `eosio_assert` failed: the chain discards every
      write, and nothing is promised about the fields. */
  class TokenContract {
    var stats: map<string, Stat>
    var accounts: map<(Name, string), Asset>

    ghost function Tables(): State
      reads this
    {
      State(stats, accounts)
    }

    constructor ()
      ensures Tables() == State(map[], map[])
    {
      stats, accounts := map[], map[];
    }

    method Take(owner: Name, value: Asset) returns (ok: bool)
      modifies this`accounts
      ensures ok == SubBalance(old(Tables()), owner, value).Commit?
      ensures ok ==> Tables() == SubBalance(old(Tables()), owner, value).value
    {
      var key := (owner, value.symbol.code);
      if key !in accounts || accounts[key].amount < value.amount { return false; }
      if accounts[key].amount == value.amount {
        accounts := accounts - {key};
      } else {
        var left := accounts[key].amount - value.amount;
        if accounts[key].symbol != value.symbol || !InRange(left) { return false; }
        accounts := accounts[key := accounts[key].(amount := left)];
      }
      return true;
    }

    method Give(owner: Name, value: Asset) returns (ok: bool)
      modifies this`accounts
      ensures ok == AddBalance(old(Tables()), owner, value).Commit?
      ensures ok ==> Tables() == AddBalance(old(Tables()), owner, value).value
    {
      var key := (owner, value.symbol.code);
      if key !in accounts {
        accounts := accounts[key := value];
      } else {
        var sum := accounts[key].amount + value.amount;
        if accounts[key].symbol != value.symbol || !InRange(sum) { return false; }
        accounts := accounts[key := accounts[key].(amount := sum)];
      }
      return true;
    }

    method Create(issuer: Name, maxSupply: Asset) returns (ok: bool)
      modifies this
      ensures ok == Token.Create(old(Tables()), issuer, maxSupply).Commit?
      ensures ok ==> Tables() == Token.Create(old(Tables()), issuer, maxSupply).value
    {
      if !ValidAsset(maxSupply) || maxSupply.amount <= 0 { return false; }
      var code := maxSupply.symbol.code;
      if code in stats { return false; }
      stats := stats[code := Stat(Asset(0, maxSupply.symbol), maxSupply, issuer)];
      return true;
    }

    method Transfer(chain: set<Name>, from: Name, to: Name, q: Asset, memo: nat) returns (ok: bool)
      modifies this`accounts
      ensures ok == Token.Transfer(old(Tables()), chain, from, to, q, memo).Commit?
      ensures ok ==> Tables() == Token.Transfer(old(Tables()), chain, from, to, q, memo).value
    {
      if from == to || to !in chain || q.symbol.code !in stats { return false; }
      if !ValidAsset(q) || q.amount <= 0 { return false; }
      if q.symbol != stats[q.symbol.code].supply.symbol || memo > 256 { return false; }
      ok := Take(from, q);
      if !ok { return; }
      ok := Give(to, q);
    }

    method Issue(chain: set<Name>, to: Name, q: Asset, memo: nat) returns (ok: bool)
      modifies this
      ensures ok == Token.Issue(old(Tables()), chain, to, q, memo).Commit?
      ensures ok ==> Tables() == Token.Issue(old(Tables()), chain, to, q, memo).value
    {
      if !ValidAsset(q) || memo > 256 || q.symbol.code !in stats { return false; }
      var st := stats[q.symbol.code];
      if q.amount <= 0 || q.symbol != st.supply.symbol { return false; }
      if q.amount > st.maxSupply.amount - st.supply.amount { return false; }
      var supply := st.supply.amount + q.amount;
      if !InRange(supply) { return false; }
      stats := stats[q.symbol.code := st.(supply := st.supply.(amount := supply))];
      ok := Give(st.issuer, q);
      if !ok { return; }
      if to != st.issuer {
        ok := Transfer(chain, st.issuer, to, q, memo);
      }
    }
  }
}
