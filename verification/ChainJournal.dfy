/** The books of the chain as sums of what its actions enter: balances, delegations, quotas, pending refunds and
    unpaid blocks. */
module ChainJournal {
  import opened Base
  import opened Votes
  import V = Votes
  import Polls
  import Token
  import S = Staking
  import opened StakingLaws
  import opened StakingEffects
  import R = RamMarket
  import opened RamLaws
  import G = Governance
  import opened GovernanceLaws
  import A = Auctions
  import AuctionLaws
  import B = Blocks
  import X = Exchange
  import opened Chain
  import opened ChainLaws
  import opened ChainSteps
  import opened ChainRuns

  // ---------------------------------------------------------------- who pays whom

  /** A transfer of the core token. */
  datatype Payment = Payment(from: Name, to: Name, amount: int)

  /** What `o` receives by a list of payments, less what it pays. */
  function Received(ps: seq<Payment>, o: Name): int {
    if ps == [] then 0 else
      (if ps[0].to == o then ps[0].amount else 0) - (if ps[0].from == o then ps[0].amount else 0) + Received(ps[1..], o)
  }

  /** The price of `bytes` on the market before the action. */
  function Price(s: State, bytes: int): int
    requires R.Live(s.ram.market)
  {
    if bytes > 0 then X.Swap(s.ram.market, X.Ram, bytes).1 else 0
  }

  /** The payments of a purchase for `quant`: half a percent is the fee. */
  function Purchase(payer: Name, quant: int): seq<Payment> {
    [Payment(payer, RAM, quant - R.Fee(quant)), Payment(payer, RAMFEE, R.Fee(quant))]
  }

  /** Who pays whom how much when an action commits. */
  function Payments(s: State, a: Action): seq<Payment>
    requires R.Live(s.ram.market)
  {
    match a
    case TokenAction(DoTransfer(from, to, q, _)) => if q.symbol == Token.CORE then [Payment(from, to, q.amount)] else []
    case Delegate(from, receiver, net, cpu, transfer) =>
      [Payment(from, STAKE, Due(s.core.ledger, from, receiver, net, cpu, transfer))]
    case Refund(owner) =>
      var r := S.RefundOf(s.core.ledger.refunds, owner); [Payment(STAKE, owner, r.net + r.cpu)]
    case BuyRam(payer, _, quant) => Purchase(payer, quant)
    case BuyRamBytes(payer, _, bytes) => Purchase(payer, Price(s, bytes))
    case SellRam(owner, sold) =>
      [Payment(RAM, owner, Price(s, sold)), Payment(owner, RAMFEE, R.Fee(Price(s, sold)))]
    case StakeToGnode(payer, _, _, _, _) => [Payment(payer, BPSTK, 10000)]
    case UnstakeGnode(owner) =>
      if owner in s.gnodes then [Payment(BPSTK, s.gnodes[owner].payer, s.gnodes[owner].staked)] else []
    case NewProposal(owner, _, _, _, _, _) => [Payment(owner, PROP, 15000)]
    case ClaimRewards(owner) => [Payment(BLKPAY, owner, UnpaidOf(s.core.book.producers, owner))]
    case BidName(bidder, name, amount) =>
      [Payment(bidder, NAMES, amount)]
      + if name in s.bids then [Payment(NAMES, s.bids[name].bidder, s.bids[name].high)] else []
    case _ => []
  }

  function UnpaidOf(ps: Producers, p: Name): int { if p in ps then ps[p].unpaid else 0 }

  /** What is issued to `o`. */
  function Issued(a: Action, o: Name): int {
    match a
    case TokenAction(DoIssue(to, q, _)) => if q.symbol == Token.CORE && to == o then q.amount else 0
    case _ => 0
  }

  // ---------------------------------------------------------------- the books

  /** One number of the books: a balance, a delegation by resource, a RAM quota, a pending refund by resource, or
      the unpaid blocks of a producer. */
  datatype Line = Tokens(owner: Name) | Net(from: Name, to: Name) | Cpu(from: Name, to: Name) | Ram(owner: Name)
                | PendingNet(owner: Name) | PendingCpu(owner: Name) | Unpaid(producer: Name)

  function Reading(s: State, b: Line): int {
    match b
    case Tokens(o) => S.Funds(s.core.token, o)
    case Net(f, t) => S.RowOf(s.core.ledger.delband, (f, t)).net
    case Cpu(f, t) => S.RowOf(s.core.ledger.delband, (f, t)).cpu
    case Ram(o) => S.ResourcesOf(s.core.ledger.userres, o).ram
    case PendingNet(o) => S.RefundOf(s.core.ledger.refunds, o).net
    case PendingCpu(o) => S.RefundOf(s.core.ledger.refunds, o).cpu
    case Unpaid(p) => UnpaidOf(s.core.book.producers, p)
  }

  /** The part of a stake to oneself that a pending refund supplies. */
  function Supplied(pending: int, staked: int): int { if staked < pending then staked else pending }

  /** What staking enters for one resource of the delegation from `f` to `t`. */
  function Delegated(a: Action, f: Name, t: Name, net: bool): int {
    match a
    case Delegate(from, receiver, n, c, transfer) =>
      if t == receiver && f == (if transfer then receiver else from) then (if net then n else c) else 0
    case Undelegate(from, receiver, n, c) => if f == from && t == receiver then (if net then -n else -c) else 0
    case _ => 0
  }

  /** What staking enters for one resource of `o`'s pending refund. */
  function Requested(a: Action, o: Name, pending: int, net: bool): int {
    match a
    case Delegate(from, receiver, n, c, transfer) =>
      if o == from == receiver && !transfer && o != STAKE then -Supplied(pending, if net then n else c) else 0
    case Undelegate(from, _, n, c) => if o == from && o != STAKE then (if net then n else c) else 0
    case Refund(owner) => if o == owner then -pending else 0
    case _ => 0
  }

  /** What the market gives for `quant`. */
  function Bytes(s: State, quant: int): int
    requires R.Live(s.ram.market)
  {
    if quant - R.Fee(quant) > 0 then X.Swap(s.ram.market, X.Core, quant - R.Fee(quant)).1 else 0
  }

  function Bought(s: State, a: Action, o: Name): int
    requires R.Live(s.ram.market)
  {
    match a
    case BuyRam(_, receiver, quant) => if o == receiver then Bytes(s, quant) else 0
    case BuyRamBytes(_, receiver, bytes) => if o == receiver then Bytes(s, Price(s, bytes)) else 0
    case SellRam(owner, sold) => if o == owner then -sold else 0
    case _ => 0
  }

  /** Blocks count once enough stake can vote and enough producers were elected, and only a registered producer's. */
  function Counted(s: State, a: Action, p: Name): int {
    match a
    case OnBlock(_, producer, _) =>
      if p == producer && p in s.core.book.producers && s.core.polls.stake >= 1_000_000 && s.producerNum >= 7 then 1 else 0
    case ClaimRewards(owner) => if p == owner then -UnpaidOf(s.core.book.producers, p) else 0
    case _ => 0
  }

  /** What an action that commits enters in a book. */
  function Entry(s: State, a: Action, b: Line): int
    requires R.Live(s.ram.market)
  {
    match b
    case Tokens(o) => Received(Payments(s, a), o) + Issued(a, o)
    case Net(f, t) => Delegated(a, f, t, true)
    case Cpu(f, t) => Delegated(a, f, t, false)
    case Ram(o) => Bought(s, a, o)
    case PendingNet(o) => Requested(a, o, Reading(s, b), true)
    case PendingCpu(o) => Requested(a, o, Reading(s, b), false)
    case Unpaid(p) => Counted(s, a, p)
  }

  ghost predicate Enters(s: State, a: Action, s': State, b: Line)
    requires R.Live(s.ram.market)
  {
    Reading(s', b) == Reading(s, b) + Entry(s, a, b)
  }

  // ---------------------------------------------------------------- lists of payments

  lemma {:induction false} OnePayment(p: Payment, o: Name)
    ensures Received([p], o) == (if p.to == o then p.amount else 0) - (if p.from == o then p.amount else 0)
  {
    assert [p][1..] == [];
  }

  lemma {:induction false} TwoPayments(p: Payment, q: Payment, o: Name)
    ensures Received([p, q], o) == Received([p], o) + Received([q], o)
  {
    OnePayment(p, o);
    OnePayment(q, o);
    assert [p, q][1..] == [q];
  }

  // ---------------------------------------------------------------- staking

  lemma {:induction false} DelegateLine(s: State, c: S.Core, a: Action, b: Line)
    requires R.Live(s.ram.market) && a.Delegate? && a.net >= 0 && a.cpu >= 0 && RowsSound(s.core.ledger)
    requires Staked(s.core.ledger, c.ledger, if a.transfer then a.receiver else a.from, a.receiver, a.net, a.cpu)
    requires Repaid(s.core.ledger, c.ledger, a.from, a.receiver, a.net, a.cpu, a.transfer)
    requires Moved(s.core.token, c.token, a.from, STAKE, Due(s.core.ledger, a.from, a.receiver, a.net, a.cpu, a.transfer))
    requires SameRegister(s.core.book.producers, c.book.producers)
    ensures Enters(s, a, s.(core := c), b)
  {
    hide S.Funds, Due, X.Swap, R.Fee, Price, Bytes, Purchase, Repaid, RowsSound;
    match b {
      case Tokens(o) => OnePayment(Payment(a.from, STAKE, Due(s.core.ledger, a.from, a.receiver, a.net, a.cpu, a.transfer)), o);
      case Ram(o) => assert S.ResourcesOf(c.ledger.userres, o).ram == S.ResourcesOf(s.core.ledger.userres, o).ram;
      case PendingNet(o) => hide Staked; RepaidLine(s.core.ledger, c.ledger, a, o);
      case PendingCpu(o) => hide Staked; RepaidLine(s.core.ledger, c.ledger, a, o);
      case _ =>
    }
  }

  lemma {:induction false} RepaidLine(l: S.Ledger, l': S.Ledger, a: Action, o: Name)
    requires a.Delegate? && a.net >= 0 && a.cpu >= 0 && RowsSound(l)
    requires Repaid(l, l', a.from, a.receiver, a.net, a.cpu, a.transfer)
    ensures S.RefundOf(l'.refunds, o).net == S.RefundOf(l.refunds, o).net + Requested(a, o, S.RefundOf(l.refunds, o).net, true)
    ensures S.RefundOf(l'.refunds, o).cpu == S.RefundOf(l.refunds, o).cpu + Requested(a, o, S.RefundOf(l.refunds, o).cpu, false)
  {
    PendingNonNegative(l, o);
  }

  lemma {:induction false} PendingNonNegative(l: S.Ledger, o: Name)
    requires RowsSound(l)
    ensures 0 <= S.RefundOf(l.refunds, o).net && 0 <= S.RefundOf(l.refunds, o).cpu
  {
  }

  lemma {:induction false} UndelegateLine(s: State, c: S.Core, a: Action, now: nat, b: Line)
    requires R.Live(s.ram.market) && a.Undelegate?
    requires Staked(s.core.ledger, c.ledger, a.from, a.receiver, -a.net, -a.cpu) && c.token == s.core.token
    requires if a.from == STAKE then c.ledger.refunds == s.core.ledger.refunds
             else Deposited(s.core.ledger.refunds, c.ledger.refunds, a.from, a.net, a.cpu, now)
    requires SameRegister(s.core.book.producers, c.book.producers)
    ensures Enters(s, a, s.(core := c), b)
  {
    hide S.Funds, X.Swap, R.Fee, Price, Bytes, Purchase;
    if b.Ram? { assert S.ResourcesOf(c.ledger.userres, b.owner).ram == S.ResourcesOf(s.core.ledger.userres, b.owner).ram; }
  }

  lemma {:induction false} RefundLine(s: State, c: S.Core, a: Action, b: Line)
    requires R.Live(s.ram.market) && a.Refund? && a.owner in s.core.ledger.refunds && c.book == s.core.book
    requires c.ledger == s.core.ledger.(refunds := s.core.ledger.refunds - {a.owner})
    requires Moved(s.core.token, c.token, STAKE, a.owner,
                   s.core.ledger.refunds[a.owner].net + s.core.ledger.refunds[a.owner].cpu)
    ensures Enters(s, a, s.(core := c), b)
  {
    hide S.Funds;
    if b.Tokens? {
      var r := s.core.ledger.refunds[a.owner];
      OnePayment(Payment(STAKE, a.owner, r.net + r.cpu), b.owner);
    }
  }

  lemma {:induction false} StakingEnters(s: State, scale: real, auths: set<Name>, a: Action, opening: nat, b: Line)
    requires Inv(s, opening) && Ready(s) && Legal(s, a) && (a.Delegate? || a.Undelegate? || a.Refund?)
    ensures var r := Apply(s, scale, auths, a); r.Commit? ==> Enters(s, a, r.value, b)
  {
    hide S.Delegate, S.Undelegate, S.Refund, Token.Sound, Sound, Polls.Sound, RamSound, GovSound, RewardsSound;
    hide AuctionLaws.AuctionSound, ReceiverSound, GiverSound, RowsSound, Staked, Repaid, Deposited, Moved, SameRegister;
    hide Enters, Due;
    var c, e := s.core, s.Env(scale);
    if Apply(s, scale, auths, a).Commit? {
      match a {
        case Delegate(from, receiver, net, cpu, transfer) =>
          var c' := S.Delegate(c, e, from, receiver, net, cpu, transfer).value;
          DelegateEffect(c, e, from, receiver, net, cpu, transfer);
          DelegateAmounts(c, e, from, receiver, net, cpu, transfer);
          DelegateSound(c, e, from, receiver, net, cpu, transfer);
          DelegateLine(s, c', a, b);
        case Undelegate(from, receiver, net, cpu) =>
          var c' := S.Undelegate(c, e, from, receiver, net, cpu).value;
          UndelegateEffect(c, e, from, receiver, net, cpu);
          UndelegateSound(c, e, from, receiver, net, cpu);
          UndelegateLine(s, c', a, e.Now(), b);
        case Refund(owner) =>
          RefundPays(c, e, owner);
          RefundBook(c, e, owner);
          RefundLine(s, S.Refund(c, e, owner).value, a, b);
      }
    }
  }

  // ---------------------------------------------------------------- tokens

  lemma {:induction false} TokenEnters(s: State, scale: real, auths: set<Name>, a: Action, opening: nat, b: Line)
    requires Inv(s, opening) && Ready(s) && Legal(s, a) && a.TokenAction?
    ensures var r := Apply(s, scale, auths, a); r.Commit? ==> Enters(s, a, r.value, b)
  {
    hide Token.Apply, Token.Sound, Sound, LedgerSound, Polls.Sound, RamSound, GovSound, RewardsSound, S.Funds, X.Swap;
    hide AuctionLaws.AuctionSound;
    if b.Tokens? && Token.Apply(s.core.token, s.accounts, a.action).Commit? {
      TokenFunds(s.core.token, s.accounts, a.action, b.owner);
      if a.action.DoTransfer? { OnePayment(Payment(a.action.from, a.action.to, a.action.quantity.amount), b.owner); }
    }
  }

  /** The core token under the actions of the token contract. */
  lemma {:induction false} TokenFunds(t: Token.State, accounts: set<Name>, a: Token.Action, o: Name)
    requires Token.Sound(t) && CoreLive(t) && Token.Apply(t, accounts, a).Commit?
    ensures S.Funds(Token.Apply(t, accounts, a).value, o) == S.Funds(t, o)
      + (if a.DoTransfer? && a.quantity.symbol == Token.CORE && a.to == o then a.quantity.amount else 0)
      - (if a.DoTransfer? && a.quantity.symbol == Token.CORE && a.from == o then a.quantity.amount else 0)
      + (if a.DoIssue? && a.quantity.symbol == Token.CORE && a.to == o then a.quantity.amount else 0)
  {
    hide Token.Transfer, Token.Issue, Token.Sound;
    match a {
      case DoCreate(issuer, maxSupply) =>
      case DoIssue(to, q, memo) =>
        Token.IssueIff(t, accounts, to, q, memo);
        assert Token.Balance(Token.Issue(t, accounts, to, q, memo).value, o, Token.CORE.code)
          == Token.Balance(t, o, Token.CORE.code) + if o == to && Token.CORE.code == q.symbol.code then q.amount else 0;
      case DoTransfer(from, to, q, memo) =>
        Token.TransferIff(t, accounts, from, to, q, memo);
        Token.TransferMoves(t, accounts, from, to, q, memo);
    }
  }

  // ---------------------------------------------------------------- RAM

  /** One quota moves. */
  lemma {:induction false} QuotaLine(s: State, c: S.Core, a: Action, receiver: Name, bytes: int, b: Line)
    requires R.Live(s.ram.market) && (a.BuyRam? || a.BuyRamBytes? || a.SellRam?) && !b.Tokens?
    requires c == s.core.(token := c.token, ledger := R.AddRam(s.core.ledger, receiver, bytes))
    requires forall o: Name :: Bought(s, a, o) == if o == receiver then bytes else 0
    ensures Enters(s, a, s.(core := c), b)
  {
    hide X.Swap, R.Fee, Bought;
  }

  lemma {:induction false} BuyEnters(s: State, scale: real, a: Action, payer: Name, receiver: Name, quant: int, b: Line)
    requires Token.Sound(s.core.token) && R.Live(s.ram.market)
    requires || a == BuyRam(payer, receiver, quant)
             || (a.BuyRamBytes? && a.payer == payer && a.receiver == receiver && quant == Price(s, a.bytes))
    ensures var r := R.BuyRam(s.core, s.ram, s.Env(scale), payer, receiver, quant);
      r.Commit? ==> Enters(s, a, s.(core := r.value.0), b)
  {
    hide R.BuyRam, Token.Sound, X.Swap, R.Fee, S.Funds, Enters, R.AddRam, Price;
    var c, e := s.core, s.Env(scale);
    var r := R.BuyRam(c, s.ram, e, payer, receiver, quant);
    if r.Commit? {
      BuyShape(c, s.ram, e, payer, receiver, quant);
      BuyRamBuys(c, s.ram, e, payer, receiver, quant);
      Delivered(c.ledger, receiver, r.value.1.reserved - s.ram.reserved);
      if b.Tokens? {
        BuyRamPays(c, s.ram, e, payer, receiver, quant);
        PurchaseLine(s, a, s.(core := r.value.0), payer, quant, b.owner);
      } else {
        QuotaLine(s, r.value.0, a, receiver, r.value.1.reserved - s.ram.reserved, b);
      }
    }
  }

  lemma {:induction false} Delivered(l: S.Ledger, owner: Name, bytes: int)
    ensures S.ResourcesOf(R.AddRam(l, owner, bytes).userres, owner).ram == S.ResourcesOf(l.userres, owner).ram + bytes
  {
  }

  lemma {:induction false} PurchaseLine(s: State, a: Action, s': State, payer: Name, quant: int, o: Name)
    requires R.Live(s.ram.market)
    requires Payments(s, a) == Purchase(payer, quant) && Issued(a, o) == 0
    requires S.Funds(s'.core.token, o) == S.Funds(s.core.token, o) + (if o == RAM then quant - R.Fee(quant) else 0)
      + (if o == RAMFEE then R.Fee(quant) else 0) - (if o == payer then quant else 0)
    ensures Enters(s, a, s', Tokens(o))
  {
    hide Payments, Issued, R.Fee, S.Funds;
    var p, q := Payment(payer, RAM, quant - R.Fee(quant)), Payment(payer, RAMFEE, R.Fee(quant));
    TwoPayments(p, q, o);
    OnePayment(p, o);
    OnePayment(q, o);
  }

  lemma {:induction false} SellEnters(s: State, scale: real, a: Action, b: Line)
    requires Token.Sound(s.core.token) && R.Live(s.ram.market) && a.SellRam?
    ensures var r := R.SellRam(s.core, s.ram, s.Env(scale), a.owner, a.sold);
      r.Commit? ==> Enters(s, a, s.(core := r.value.0), b)
  {
    hide R.SellRam, Token.Sound, X.Swap, R.Fee, S.Funds, R.AddRam;
    var c, e := s.core, s.Env(scale);
    var r := R.SellRam(c, s.ram, e, a.owner, a.sold);
    if r.Commit? {
      SellShape(c, s.ram, e, a.owner, a.sold);
      SellPrices(c, s.ram, e, a.owner, a.sold);
      if b.Tokens? {
        SellRamPays(c, s.ram, e, a.owner, a.sold);
        var p, q := Payment(RAM, a.owner, Price(s, a.sold)), Payment(a.owner, RAMFEE, R.Fee(Price(s, a.sold)));
        TwoPayments(p, q, b.owner);
        OnePayment(p, b.owner);
        OnePayment(q, b.owner);
        assert S.Funds(r.value.0.token, b.owner) == S.Funds(r.value.0.token, b.owner);
      } else {
        QuotaLine(s, r.value.0, a, a.owner, -a.sold, b);
      }
    }
  }

  lemma {:induction false} SellPrices(c: S.Core, s: R.State, e: S.Env, owner: Name, sold: int)
    requires R.Live(s.market)
    ensures var r := R.SellRam(c, s, e, owner, sold);
      r.Commit? ==>
        sold > 0 && r.value.1.reserved == s.reserved - sold && s.stake - r.value.1.stake == X.Swap(s.market, X.Ram, sold).1
  {
    hide S.Pay, X.Swap;
  }

  // ---------------------------------------------------------------- governance and names

  /** Nothing but tokens moves, by one payment. */
  lemma {:induction false} PaymentLine(s: State, a: Action, s': State, p: Payment, b: Line)
    requires R.Live(s.ram.market) && (a.StakeToGnode? || a.UnstakeGnode? || a.NewProposal?)
    requires Payments(s, a) == [p] && s'.core.ledger == s.core.ledger && s'.core.book == s.core.book
    requires Moved(s.core.token, s'.core.token, p.from, p.to, p.amount)
    ensures Enters(s, a, s', b)
  {
    hide Payments, S.Funds;
    if b.Tokens? { OnePayment(p, b.owner); }
  }

  lemma {:induction false} NodesEnter(s: State, scale: real, auths: set<Name>, a: Action, opening: nat, b: Line)
    requires Inv(s, opening) && Ready(s) && Legal(s, a) && (a.StakeToGnode? || a.UnstakeGnode? || a.NewProposal?)
    ensures var r := Apply(s, scale, auths, a); r.Commit? ==> Enters(s, a, r.value, b)
  {
    hide Token.Sound, Sound, LedgerSound, Polls.Sound, RamSound, GovSound, RewardsSound, S.Funds, S.Pay, X.Swap, Enters;
    hide AuctionLaws.AuctionSound, G.Uninvolved, G.IsAvailable, Sender;
    var r := Apply(s, scale, auths, a);
    if r.Commit? {
      var p := Payments(s, a)[0];
      PayEffect(s.core.token, s.Env(scale), p.from, p.to, p.amount);
      PaymentLine(s, a, r.value, p, b);
    }
  }

  lemma {:induction false} BidEnters(s: State, scale: real, auths: set<Name>, a: Action, opening: nat, b: Line)
    requires Inv(s, opening) && Ready(s) && Legal(s, a) && a.BidName?
    ensures var r := Apply(s, scale, auths, a); r.Commit? ==> Enters(s, a, r.value, b)
  {
    hide Token.Sound, Sound, LedgerSound, Polls.Sound, RamSound, GovSound, RewardsSound, S.Funds, S.Pay, X.Swap;
    hide AuctionLaws.AuctionSound, A.Biddable, A.Raises;
    var r, e := Apply(s, scale, auths, a), s.Env(scale);
    if r.Commit? {
      PayEffect(s.core.token, e, a.bidder, NAMES, a.amount);
      var p := Payment(a.bidder, NAMES, a.amount);
      if a.name in s.bids {
        var bid, t1 := s.bids[a.name], S.Pay(s.core.token, e, a.bidder, NAMES, a.amount).value;
        PayEffect(t1, e, NAMES, bid.bidder, bid.high);
        if b.Tokens? {
          var q := Payment(NAMES, bid.bidder, bid.high);
          assert [p] + [q] == [p, q];
          TwoPayments(p, q, b.owner);
          OnePayment(q, b.owner);
        }
      }
      if b.Tokens? {
        assert [p] + [] == [p];
        OnePayment(p, b.owner);
      }
    }
  }

  lemma {:induction false} ClaimEnters(s: State, scale: real, auths: set<Name>, a: Action, opening: nat, b: Line)
    requires Inv(s, opening) && Ready(s) && Legal(s, a) && a.ClaimRewards?
    ensures var r := Apply(s, scale, auths, a); r.Commit? ==> Enters(s, a, r.value, b)
  {
    hide Token.Sound, Sound, LedgerSound, Polls.Sound, RamSound, GovSound, S.Funds, S.Pay, X.Swap, Sum;
    hide AuctionLaws.AuctionSound;
    var r, ps := Apply(s, scale, auths, a), s.core.book.producers;
    if r.Commit? {
      PayIsExact(ps, s.rewards, a.owner);
      PayEffect(s.core.token, s.Env(scale), BLKPAY, a.owner, ps[a.owner].unpaid);
      if b.Tokens? { OnePayment(Payment(BLKPAY, a.owner, ps[a.owner].unpaid), b.owner); }
    }
  }

  /** Nothing but the register of producers and the empty row of a new account. */
  lemma {:induction false} StillLine(s: State, a: Action, s': State, b: Line)
    requires R.Live(s.ram.market) && Payments(s, a) == [] && s'.core.token == s.core.token
    requires forall o: Name :: Issued(a, o) == 0 && Bought(s, a, o) == 0
    requires !a.Delegate? && !a.Undelegate? && !a.Refund?
    requires s'.core.ledger.delband == s.core.ledger.delband && s'.core.ledger.refunds == s.core.ledger.refunds
    requires forall o: Name {:trigger S.ResourcesOf(s'.core.ledger.userres, o)} ::
      S.ResourcesOf(s'.core.ledger.userres, o) == S.ResourcesOf(s.core.ledger.userres, o)
    requires forall p: Name {:trigger UnpaidOf(s'.core.book.producers, p)} ::
      UnpaidOf(s'.core.book.producers, p) == UnpaidOf(s.core.book.producers, p) + Counted(s, a, p)
    ensures Enters(s, a, s', b)
  {
    hide Payments, Issued, Bought, Counted, S.Funds, UnpaidOf, S.ResourcesOf;
  }

  lemma {:induction false} RegisterUnpaid(ps: Producers, ps': Producers, p: Name)
    requires SameRegister(ps, ps')
    ensures UnpaidOf(ps', p) == UnpaidOf(ps, p)
  {
  }

  lemma {:induction false} ExecUnpaid(x: G.Effect, polls: Polls.Tables, e: S.Env, auths: set<Name>, owner: Name,
                                      id: nat, p: Name)
    ensures var r := G.ExecProposal(x, polls, e, auths, owner, id);
      r.Commit? ==> UnpaidOf(r.value.0.producers, p) == UnpaidOf(x.producers, p)
  {
    hide G.Passes, G.ProducersSize;
  }

  lemma {:induction false} BlockUnpaid(t: B.Tables, stake: int, num: int, threshold: nat, micros: nat, slot: int,
                                       producer: Name, first: Name, p: Name)
    requires t.bids != map[] ==> A.IsFirst(t.bids, first)
    ensures UnpaidOf(B.OnBlock(t, stake, num, threshold, micros, slot, producer, first).producers, p)
      == UnpaidOf(t.producers, p) + if p == producer && p in t.producers && stake >= 1_000_000 && num >= 7 then 1 else 0
  {
    hide A.CloseFirst, A.IsFirst;
  }

  predicate Trades(a: Action) { a.BuyRam? || a.BuyRamBytes? || a.SellRam? }

  /** The actions that move no tokens, stakes or quotas. */
  predicate Still(a: Action) {
    || a.VoteProducer? || a.RegProxy? || a.VoteProposal? || a.SetRam? || a.UpdateGnode? || a.ExecProposal?
    || a.RmvProducer? || a.OnBlock? || a.NewAccount?
  }

  lemma {:induction false} RegisterStill(s: State, scale: real, auths: set<Name>, a: Action, p: Name)
    requires Ready(s) && Legal(s, a) && Still(a)
    ensures var r := Apply(s, scale, auths, a);
      r.Commit? ==> UnpaidOf(r.value.core.book.producers, p) == UnpaidOf(s.core.book.producers, p) + Counted(s, a, p)
  {
    hide Sound, UpdateVotes, V.RegProxy, Polls.VoteProposal, R.SetRam, G.UpdateGnode, G.ExecProposal, B.OnBlock;
    hide A.NewAccount, UnpaidOf, A.IsFirst, SameRegister;
    var r := Apply(s, scale, auths, a);
    if r.Commit? {
      match a {
        case VoteProducer(voter, proxy, producers) =>
          UpdateVotesStakes(s.core.book, voter, proxy, producers, true, scale);
          RegisterUnpaid(s.core.book.producers, r.value.core.book.producers, p);
        case RegProxy(voter, isProxy) =>
          RegProxyStakes(s.core.book, voter, isProxy, scale);
          RegisterUnpaid(s.core.book.producers, r.value.core.book.producers, p);
        case ExecProposal(owner, id) => ExecUnpaid(s.Governed(), s.core.polls, s.Env(scale), auths, owner, id, p);
        case RmvProducer(producer) => RemovedUnpaid(s.core.book.producers, producer, p);
        case OnBlock(slot, producer, first) =>
          BlockUnpaid(s.Blocks(), s.core.polls.stake, s.producerNum, s.core.threshold, s.micros, slot, producer, first, p);
        case _ =>
      }
    }
  }

  lemma {:induction false} RemovedUnpaid(ps: Producers, q: Name, p: Name)
    ensures var r := G.RmvProducer(ps, q); r.Commit? ==> UnpaidOf(r.value, p) == UnpaidOf(ps, p)
  {
  }

  lemma {:induction false} LedgerStill(s: State, scale: real, auths: set<Name>, a: Action)
    requires Ready(s) && Legal(s, a) && Still(a) && !a.NewAccount?
    ensures var r := Apply(s, scale, auths, a);
      r.Commit? ==> r.value.core.token == s.core.token && r.value.core.ledger == s.core.ledger
  {
    hide Sound, UpdateVotes, V.RegProxy, Polls.VoteProposal, R.SetRam, G.UpdateGnode, G.ExecProposal, B.OnBlock;
    hide A.IsFirst, A.NewAccount, G.RmvProducer;
  }

  /** An empty resource row counts as none. */
  lemma {:induction false} NewRow(s: State, scale: real, auths: set<Name>, a: Action, o: Name)
    requires Ready(s) && Legal(s, a) && a.NewAccount?
    ensures var r := Apply(s, scale, auths, a);
      r.Commit? ==>
        && r.value.core.token == s.core.token && r.value.core.ledger.delband == s.core.ledger.delband
        && r.value.core.ledger.refunds == s.core.ledger.refunds
        && S.ResourcesOf(r.value.core.ledger.userres, o) == S.ResourcesOf(s.core.ledger.userres, o)
  {
    hide Ready, A.NewAccount;
    AuctionLaws.NewAccountIff(s.core.ledger, s.bids, s.accounts, a.creator, a.name);
  }

  lemma {:induction false} StillEnters(s: State, scale: real, auths: set<Name>, a: Action, b: Line)
    requires Ready(s) && Legal(s, a) && Still(a)
    ensures var r := Apply(s, scale, auths, a); r.Commit? ==> Enters(s, a, r.value, b)
  {
    hide Sound, Legal, Apply, UnpaidOf, S.ResourcesOf, Enters, Counted;
    var r := Apply(s, scale, auths, a);
    if r.Commit? {
      if a.NewAccount? {
        NewRow(s, scale, auths, a, NO_NAME);
        forall o: Name
          ensures S.ResourcesOf(r.value.core.ledger.userres, o) == S.ResourcesOf(s.core.ledger.userres, o)
        {
          NewRow(s, scale, auths, a, o);
        }
      } else {
        LedgerStill(s, scale, auths, a);
      }
      forall p: Name ensures UnpaidOf(r.value.core.book.producers, p) == UnpaidOf(s.core.book.producers, p) + Counted(s, a, p) {
        RegisterStill(s, scale, auths, a, p);
      }
      StillLine(s, a, r.value, b);
    }
  }

  lemma {:induction false} TradeEnters(s: State, scale: real, auths: set<Name>, a: Action, opening: nat, b: Line)
    requires Inv(s, opening) && Ready(s) && Legal(s, a) && Trades(a)
    ensures var r := Apply(s, scale, auths, a); r.Commit? ==> Enters(s, a, r.value, b)
  {
    hide Token.Sound, Sound, LedgerSound, Polls.Sound, RamSound, GovSound, RewardsSound, X.Swap, R.BuyRam, R.SellRam;
    hide AuctionLaws.AuctionSound, Entry, S.Funds;
    match a {
      case BuyRam(payer, receiver, quant) => BuyEnters(s, scale, a, payer, receiver, quant, b);
      case BuyRamBytes(payer, receiver, bytes) =>
        RamPrice(s.ram.market, bytes);
        BuyEnters(s, scale, a, payer, receiver, Price(s, bytes), b);
      case SellRam(owner, sold) => SellEnters(s, scale, a, b);
    }
  }

  /** Every committed action enters in every line of the books exactly what the tables before it say: who pays whom,
      whose delegation, quota, refund and block count moves, and by how much. */
  lemma {:induction false} ApplyEnters(s: State, scale: real, auths: set<Name>, a: Action, opening: nat, b: Line)
    requires Inv(s, opening) && Ready(s) && Legal(s, a)
    ensures var r := Apply(s, scale, auths, a); r.Commit? ==> Enters(s, a, r.value, b)
  {
    hide Inv, Sound, Legal, Apply, Enters;
    if a.TokenAction? {
      TokenEnters(s, scale, auths, a, opening, b);
    } else if a.Delegate? || a.Undelegate? || a.Refund? {
      StakingEnters(s, scale, auths, a, opening, b);
    } else if Trades(a) {
      TradeEnters(s, scale, auths, a, opening, b);
    } else if a.StakeToGnode? || a.UnstakeGnode? || a.NewProposal? {
      NodesEnter(s, scale, auths, a, opening, b);
    } else if a.ClaimRewards? {
      ClaimEnters(s, scale, auths, a, opening, b);
    } else if a.BidName? {
      BidEnters(s, scale, auths, a, opening, b);
    } else {
      StillEnters(s, scale, auths, a, b);
    }
  }

  // ---------------------------------------------------------------- whole runs

  /** What an event enters: nothing if its action aborts. */
  ghost function Entered(s: State, ev: Event, b: Line): int {
    if Commits(s, ev) then Entry(At(s, ev.micros), ev.action, b) else 0
  }

  /** What the events from `i` to `j` enter together. */
  ghost function Total(states: seq<State>, events: seq<Event>, b: Line, i: nat, j: nat): int
    requires i <= j <= |events| && j <= |states|
    decreases j - i
  {
    if i == j then 0 else Total(states, events, b, i, j - 1) + Entered(states[j - 1], events[j - 1], b)
  }

  lemma {:induction false} NextEnters(s: State, ev: Event, s': State, opening: nat, b: Line)
    requires Inv(s, opening) && Next(s, ev, s')
    ensures Reading(s', b) == Reading(s, b) + Entered(s, ev, b)
  {
    hide Inv, Legal, Ready, Apply, Entry;
    TimePasses(s, ev.micros, opening);
    if Commits(s, ev) { ApplyEnters(At(s, ev.micros), ev.scale, ev.auths, ev.action, opening, b); }
  }

  /** Over any stretch of any run every balance, delegation, quota, pending refund and block count moves by exactly
      the sum of what the committed actions enter. */
  lemma {:induction false} RunEnters(states: seq<State>, events: seq<Event>, opening: nat, b: Line, i: nat, j: nat)
    requires IsRun(states, events) && Inv(states[0], opening) && i <= j < |states|
    ensures Reading(states[j], b) == Reading(states[i], b) + Total(states, events, b, i, j)
    decreases j - i
  {
    hide Inv, Next, Reading, Entered;
    if i < j {
      RunEnters(states, events, opening, b, i, j - 1);
      RunSound(states, events, opening, j - 1);
      assert Next(states[j - 1], events[j - 1], states[j]);
      NextEnters(states[j - 1], events[j - 1], states[j], opening, b);
    }
  }
}
