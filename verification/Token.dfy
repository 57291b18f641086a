/** The token contract: create, issue and transfer over the stat and accounts tables. */
module Token {
  import opened Base

  datatype Symbol = Symbol(precision: nat, code: string)
  datatype Asset = Asset(amount: int, symbol: Symbol)

  /** asset::max_amount, 2^62 - 1. */
  const MAX_AMOUNT := 0x3fff_ffff_ffff_ffff

  const CORE := Symbol(4, "EON")

  predicate ValidSymbol(s: Symbol) {
    s.precision < 256 && 1 <= |s.code| <= 7 && forall i | 0 <= i < |s.code| :: 'A' <= s.code[i] <= 'Z'
  }

  predicate InRange(amount: int) { -MAX_AMOUNT <= amount <= MAX_AMOUNT }

  predicate ValidAsset(a: Asset) { InRange(a.amount) && ValidSymbol(a.symbol) }

  /** currency_stats. */
  datatype Stat = Stat(supply: Asset, maxSupply: Asset, issuer: Name)

  /** The stat table by symbol code, and the accounts tables by owner and code. */
  datatype State = State(stats: map<string, Stat>, accounts: map<(Name, string), Asset>)

  function Balance(t: State, owner: Name, code: string): int {
    if (owner, code) in t.accounts then t.accounts[(owner, code)].amount else 0
  }

  /** asset::operator+= with its asserts on symbol and range. */
  function Plus(a: Asset, amount: int, symbol: Symbol): Outcome<Asset> {
    if symbol != a.symbol then Abort(PrecisionMismatch) else
    :- Assert(InRange(a.amount + amount), AssetOverflow);
    Commit(a.(amount := a.amount + amount))
  }

  function SubBalance(t: State, owner: Name, value: Asset): Outcome<State> {
    var key := (owner, value.symbol.code);
    :- Assert(key in t.accounts, NoBalance);
    :- Assert(t.accounts[key].amount >= value.amount, Overdrawn);
    if t.accounts[key].amount == value.amount then
      Commit(t.(accounts := t.accounts - {key}))
    else
      var row :- Plus(t.accounts[key], -value.amount, value.symbol);
      Commit(t.(accounts := t.accounts[key := row]))
  }

  function AddBalance(t: State, owner: Name, value: Asset): Outcome<State> {
    var key := (owner, value.symbol.code);
    if key !in t.accounts then
      Commit(t.(accounts := t.accounts[key := value]))
    else
      var row :- Plus(t.accounts[key], value.amount, value.symbol);
      Commit(t.(accounts := t.accounts[key := row]))
  }

  function Create(t: State, issuer: Name, maxSupply: Asset): Outcome<State> {
    if !ValidSymbol(maxSupply.symbol) then Abort(InvalidSymbol) else
    :- Assert(ValidAsset(maxSupply), InvalidSupply);
    :- Assert(maxSupply.amount > 0, MaxSupplyNotPositive);
    :- Assert(maxSupply.symbol.code !in t.stats, SymbolExists);
    Commit(t.(stats := t.stats[maxSupply.symbol.code := Stat(Asset(0, maxSupply.symbol), maxSupply, issuer)]))
  }

  /** `accounts` are the accounts that exist on the chain, `memo` the length of the memo. */
  function Transfer(t: State, accounts: set<Name>, from: Name, to: Name, q: Asset, memo: nat): Outcome<State> {
    if from == to then Abort(SelfTransfer) else
    :- Assert(to in accounts, NoSuchAccount);
    :- Assert(q.symbol.code in t.stats, NoSuchToken);
    :- Assert(ValidAsset(q), InvalidQuantity);
    :- Assert(q.amount > 0, QuantityNotPositive);
    :- Assert(q.symbol == t.stats[q.symbol.code].supply.symbol, PrecisionMismatch);
    :- Assert(memo <= 256, MemoTooLong);
    var t1 :- SubBalance(t, from, q);
    AddBalance(t1, to, q)
  }

  function Issue(t: State, accounts: set<Name>, to: Name, q: Asset, memo: nat): Outcome<State> {
    if !ValidSymbol(q.symbol) then Abort(InvalidSymbol) else
    :- Assert(memo <= 256, MemoTooLong);
    :- Assert(q.symbol.code in t.stats, NoSuchToken);
    var st := t.stats[q.symbol.code];
    :- Assert(ValidAsset(q), InvalidQuantity);
    :- Assert(q.amount > 0, QuantityNotPositive);
    :- Assert(q.symbol == st.supply.symbol, PrecisionMismatch);
    :- Assert(q.amount <= st.maxSupply.amount - st.supply.amount, ExceedsSupply);
    var supply :- Plus(st.supply, q.amount, q.symbol);
    var t1 :- AddBalance(t.(stats := t.stats[q.symbol.code := st.(supply := supply)]), st.issuer, q);
    if to != st.issuer then Transfer(t1, accounts, st.issuer, to, q, memo) else Commit(t1)
  }

  // ---------------------------------------------------------------- conservation

  ghost function Column(t: State, code: string): map<(Name, string), int> {
    map k | k in t.accounts && k.1 == code :: t.accounts[k].amount
  }

  /** All balances of one token added up. */
  ghost function Total(t: State, code: string): int { Sum(Column(t, code)) }

  ghost predicate StatSound(t: State, code: string)
    requires code in t.stats
  {
    var st := t.stats[code];
    && ValidSymbol(st.supply.symbol) && st.supply.symbol.code == code
    && st.maxSupply.symbol == st.supply.symbol
    && 0 <= st.supply.amount <= st.maxSupply.amount <= MAX_AMOUNT
    && Total(t, code) == st.supply.amount
  }

  ghost predicate RowSound(t: State, k: (Name, string))
    requires k in t.accounts
  {
    k.1 in t.stats && t.accounts[k].symbol == t.stats[k.1].supply.symbol && t.accounts[k].amount > 0
  }

  /** Every row holds a positive balance of an existing token, and for every token the balances add
      up to its supply, which is within its maximum. */
  ghost predicate Sound(t: State) {
    && (forall code <- t.stats {:trigger StatSound(t, code)} :: StatSound(t, code))
    && (forall k <- t.accounts {:trigger RowSound(t, k)} :: RowSound(t, k))
  }

  /** One balance never exceeds the supply. */
  lemma {:induction false} BalanceWithinSupply(t: State, k: (Name, string))
    requires Sound(t) && k in t.accounts
    ensures RowSound(t, k) && 0 < t.accounts[k].amount <= t.stats[k.1].supply.amount
    ensures t.stats[k.1].supply.amount <= t.stats[k.1].maxSupply.amount <= MAX_AMOUNT
  {
    hide Sum;
    assert RowSound(t, k) && StatSound(t, k.1);
    forall x | x in Column(t, k.1) ensures 0 <= Column(t, k.1)[x] { assert RowSound(t, x); }
    SumAtLeast(Column(t, k.1), k);
  }

  lemma {:induction false} TwoWithinSupply(t: State, k: (Name, string), k': (Name, string))
    requires Sound(t) && k in t.accounts && k' in t.accounts && k != k' && k.1 == k'.1
    ensures k.1 in t.stats && t.accounts[k].amount + t.accounts[k'].amount <= t.stats[k.1].supply.amount
  {
    hide Sum;
    assert RowSound(t, k) && StatSound(t, k.1);
    var c := Column(t, k.1);
    forall x | x in c ensures 0 <= c[x] { assert RowSound(t, x); }
    SumRemove(c, k);
    SumAtLeast(c - {k}, k');
  }

  lemma {:induction false} ColumnChange(t: State, t': State, k: (Name, string), code: string)
    requires forall x :: x != k ==> (x in t.accounts <==> x in t'.accounts)
    requires forall x <- t.accounts :: x != k ==> t.accounts[x] == t'.accounts[x]
    ensures Total(t', code) == Total(t, code)
      + if k.1 == code then Balance(t', k.0, code) - Balance(t, k.0, code) else 0
  {
    hide Sum;
    SumChange(Column(t, code), Column(t', code), k);
  }

  /** Transfer commits exactly when the stated conditions hold: past the sender's balance check, no
      symbol or overflow assert of the asset arithmetic can fire. */
  lemma {:induction false} TransferIff(t: State, accounts: set<Name>, from: Name, to: Name, q: Asset, memo: nat)
    requires Sound(t)
    ensures Transfer(t, accounts, from, to, q, memo).Commit?
      <==> && from != to && to in accounts && memo <= 256 && 0 < q.amount
           && q.symbol.code in t.stats && q.symbol == t.stats[q.symbol.code].supply.symbol
           && q.amount <= Balance(t, from, q.symbol.code)
  {
    var code := q.symbol.code;
    var k, k' := (from, code), (to, code);
    if k in t.accounts { BalanceWithinSupply(t, k); }
    if k' in t.accounts { BalanceWithinSupply(t, k'); }
    if k in t.accounts && k' in t.accounts && k != k' { TwoWithinSupply(t, k, k'); }
    if code in t.stats { assert StatSound(t, code); }
  }

  /** A committed transfer moves `q` from one balance to the other and touches nothing else. */
  lemma {:induction false} TransferMoves(t: State, accounts: set<Name>, from: Name, to: Name, q: Asset, memo: nat)
    requires Sound(t) && Transfer(t, accounts, from, to, q, memo).Commit?
    ensures var t' := Transfer(t, accounts, from, to, q, memo).value;
      && t'.stats == t.stats
      && Balance(t', from, q.symbol.code) == Balance(t, from, q.symbol.code) - q.amount
      && Balance(t', to, q.symbol.code) == Balance(t, to, q.symbol.code) + q.amount
      && forall o: Name, c: string {:trigger Balance(t', o, c)} ::
           (c != q.symbol.code || (o != from && o != to)) ==> Balance(t', o, c) == Balance(t, o, c)
  {
  }

  lemma {:induction false} TransferSound(t: State, accounts: set<Name>, from: Name, to: Name, q: Asset, memo: nat)
    requires Sound(t) && Transfer(t, accounts, from, to, q, memo).Commit?
    ensures Sound(Transfer(t, accounts, from, to, q, memo).value)
  {
    hide Sum, ValidSymbol;
    var code := q.symbol.code;
    var t1 := SubBalance(t, from, q).value;
    var t' := Transfer(t, accounts, from, to, q, memo).value;
    TransferMoves(t, accounts, from, to, q, memo);
    assert RowSound(t, (from, code));
    forall c | c in t'.stats ensures StatSound(t', c) {
      assert StatSound(t, c);
      ColumnChange(t, t1, (from, code), c);
      ColumnChange(t1, t', (to, code), c);
    }
    forall x | x in t'.accounts ensures RowSound(t', x) {
      if x in t.accounts { assert RowSound(t, x); }
    }
  }

  /** The books after issuing `q` to the issuer. */
  function Minted(t: State, q: Asset): State
    requires q.symbol.code in t.stats
  {
    var st := t.stats[q.symbol.code];
    var key := (st.issuer, q.symbol.code);
    var row := Asset((if key in t.accounts then t.accounts[key].amount else 0) + q.amount, q.symbol);
    State(t.stats[q.symbol.code := st.(supply := Asset(st.supply.amount + q.amount, q.symbol))],
          t.accounts[key := row])
  }

  lemma {:induction false} MintedSound(t: State, q: Asset)
    requires Sound(t) && q.symbol.code in t.stats && q.symbol == t.stats[q.symbol.code].supply.symbol
    requires 0 < q.amount <= t.stats[q.symbol.code].maxSupply.amount - t.stats[q.symbol.code].supply.amount
    ensures Sound(Minted(t, q))
  {
    hide Sum, ValidSymbol;
    var t' := Minted(t, q);
    var code := q.symbol.code;
    var k := (t.stats[code].issuer, code);
    if k in t.accounts { assert RowSound(t, k); }
    forall c | c in t'.stats ensures StatSound(t', c) {
      assert StatSound(t, c);
      ColumnChange(t, t', k, c);
    }
    forall x | x in t'.accounts ensures RowSound(t', x) {
      if x in t.accounts { assert RowSound(t, x); }
    }
  }

  /** Issue commits exactly when the stated conditions hold, keeps the books sound and credits only
      the receiver: the detour over the issuer's balance cannot fail or leave a trace. */
  lemma {:induction false} IssueIff(t: State, accounts: set<Name>, to: Name, q: Asset, memo: nat)
    requires Sound(t)
    ensures var r := Issue(t, accounts, to, q, memo);
      && (r.Commit? <==> && memo <= 256 && 0 < q.amount && q.symbol.code in t.stats
                         && q.symbol == t.stats[q.symbol.code].supply.symbol
                         && q.amount <= t.stats[q.symbol.code].maxSupply.amount - t.stats[q.symbol.code].supply.amount
                         && (to == t.stats[q.symbol.code].issuer || to in accounts))
      && (r.Commit? ==>
            && Sound(r.value)
            && r.value.stats == Minted(t, q).stats
            && forall o: Name, c: string {:trigger Balance(r.value, o, c)} ::
                 Balance(r.value, o, c) == Balance(t, o, c) + if o == to && c == q.symbol.code then q.amount else 0)
  {
    hide Sum, Transfer, Sound;
    var r := Issue(t, accounts, to, q, memo);
    var code := q.symbol.code;
    if code in t.stats {
      StatOf(t, code);
      var st := t.stats[code];
      var k := (st.issuer, code);
      if k in t.accounts { BalanceWithinSupply(t, k); }
      if 0 < q.amount <= st.maxSupply.amount - st.supply.amount && q.symbol == st.supply.symbol {
        MintedSound(t, q);
        assert Minted(t, q) == AddBalance(t.(stats := Minted(t, q).stats), st.issuer, q).value;
        if to != st.issuer {
          TransferIff(Minted(t, q), accounts, st.issuer, to, q, memo);
          if Transfer(Minted(t, q), accounts, st.issuer, to, q, memo).Commit? {
            TransferMoves(Minted(t, q), accounts, st.issuer, to, q, memo);
            TransferSound(Minted(t, q), accounts, st.issuer, to, q, memo);
          }
        }
      }
    }
  }

  lemma {:induction false} StatOf(t: State, code: string)
    requires Sound(t) && code in t.stats
    ensures StatSound(t, code)
  {
  }

  /** Create commits exactly for a valid symbol that is not in use and a positive maximum in range; the new
      token starts with nothing issued, under the issuer and maximum given, and no other token and no
      balance changes. */
  lemma {:induction false} CreateIff(t: State, issuer: Name, maxSupply: Asset)
    ensures var r, code := Create(t, issuer, maxSupply), maxSupply.symbol.code;
      && (r.Commit? <==> ValidSymbol(maxSupply.symbol) && 0 < maxSupply.amount <= MAX_AMOUNT && code !in t.stats)
      && (r.Commit? ==>
            && r.value.stats.Keys == t.stats.Keys + {code} && r.value.accounts == t.accounts
            && r.value.stats[code].issuer == issuer && r.value.stats[code].maxSupply == maxSupply
            && r.value.stats[code].supply.amount == 0 && r.value.stats[code].supply.symbol == maxSupply.symbol
            && forall c <- t.stats :: r.value.stats[c] == t.stats[c])
  {
    hide ValidSymbol;
  }

  lemma {:induction false} CreateSound(t: State, issuer: Name, maxSupply: Asset)
    requires Sound(t)
    ensures var r := Create(t, issuer, maxSupply); r.Commit? ==> Sound(r.value)
  {
    hide Sum, ValidSymbol;
    var r := Create(t, issuer, maxSupply);
    if r.Commit? {
      var t', code := r.value, maxSupply.symbol.code;
      forall c | c in t'.stats ensures StatSound(t', c) {
        assert Column(t', c) == Column(t, c);
        if c != code { assert StatSound(t, c); } else {
          forall x | x in t.accounts ensures x.1 != code { assert RowSound(t, x); }
          SumZero(Column(t, code));
        }
      }
      forall x | x in t'.accounts ensures RowSound(t', x) { assert RowSound(t, x); }
    }
  }

  // ---------------------------------------------------------------- runs

  datatype Action =
    | DoCreate(issuer: Name, maxSupply: Asset)
    | DoIssue(to: Name, quantity: Asset, memo: nat)
    | DoTransfer(from: Name, to: Name, quantity: Asset, memo: nat)

  function Apply(t: State, accounts: set<Name>, a: Action): Outcome<State> {
    match a
    case DoCreate(issuer, maxSupply) => Create(t, issuer, maxSupply)
    case DoIssue(to, q, memo) => Issue(t, accounts, to, q, memo)
    case DoTransfer(from, to, q, memo) => Transfer(t, accounts, from, to, q, memo)
  }

  /** An action and the accounts that exist when it is sent. */
  datatype Sent = Sent(accounts: set<Name>, action: Action)

  /** A run of actions from the empty contract; an aborted action changes nothing. */
  function Run(run: seq<Sent>): State {
    if run == [] then State(map[], map[]) else
      var t := Run(run[..|run| - 1]);
      var r := Apply(t, run[|run| - 1].accounts, run[|run| - 1].action);
      if r.Commit? then r.value else t
  }

  /** After every run, for every token: balances are positive and add up to the supply, and the
      supply is within the maximum. */
  lemma {:induction false} RunSound(run: seq<Sent>)
    ensures Sound(Run(run))
    decreases |run|
  {
    if run != [] {
      hide Sum, Transfer, Issue, Create, Sound;
      var t, accounts := Run(run[..|run| - 1]), run[|run| - 1].accounts;
      RunSound(run[..|run| - 1]);
      match run[|run| - 1].action {
        case DoCreate(issuer, maxSupply) => CreateSound(t, issuer, maxSupply);
        case DoIssue(to, q, memo) => IssueIff(t, accounts, to, q, memo);
        case DoTransfer(from, to, q, memo) =>
          if Transfer(t, accounts, from, to, q, memo).Commit? { TransferSound(t, accounts, from, to, q, memo); }
      }
    }
  }
}
