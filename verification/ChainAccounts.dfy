/** Accounts never vanish: whoever the contract may have to pay exists. */
module ChainAccounts {
  import opened Base
  import opened Votes
  import V = Votes
  import Polls
  import VoteWeight
  import Token
  import S = Staking
  import opened StakingLaws
  import R = RamMarket
  import G = Governance
  import A = Auctions
  import B = Blocks
  import X = Exchange
  import opened Chain
  import opened ChainLaws
  import opened ChainSteps

  /** The accounts the contract sends tokens to and from by name. */
  const FIXED: set<Name> := {STAKE, RAM, RAMFEE, BPSTK, PROP, NAMES, BLKPAY}

  /** Everybody with a refund or a resource row. */
  ghost predicate Owners(l: S.Ledger, accounts: set<Name>) { l.refunds.Keys <= accounts && l.userres.Keys <= accounts }

  /** Everybody who paid for a node. */
  ghost predicate Payers(gs: G.GNodes, accounts: set<Name>) { forall o <- gs :: gs[o].payer in accounts }

  /** Everybody whose bid stands. */
  ghost predicate Bidders(bids: A.Bids, accounts: set<Name>) { forall n <- bids :: bids[n].bidder in accounts }

  ghost predicate Present(s: State) {
    FIXED <= s.accounts && Owners(s.core.ledger, s.accounts) && Payers(s.gnodes, s.accounts) && Bidders(s.bids, s.accounts)
  }

  lemma {:induction false} BookedOwners(l: S.Ledger, payer: Name, receiver: Name, net: int, cpu: int, transfer: bool,
                                        now: nat, accounts: set<Name>)
    requires Owners(l, accounts) && payer in accounts && receiver in accounts
    ensures var r := S.Booked(l, payer, receiver, net, cpu, transfer, now); r.Commit? ==> Owners(r.value.0, accounts)
  {
  }

  lemma {:induction false} StakingOwners(c: S.Core, e: S.Env, from: Name, receiver: Name, net: int, cpu: int,
                                         transfer: bool, accounts: set<Name>)
    requires Sound(c.book) && from != NO_NAME && receiver != NO_NAME
    requires Owners(c.ledger, accounts) && from in accounts && receiver in accounts
    ensures var r := S.Delegate(c, e, from, receiver, net, cpu, transfer);
      r.Commit? ==> Owners(r.value.ledger, accounts)
    ensures var r := S.Undelegate(c, e, from, receiver, net, cpu); r.Commit? ==> Owners(r.value.ledger, accounts)
  {
    hide S.ChangeBandwidth, S.Reweighed, S.Booked, Sound, Owners;
    if S.Delegate(c, e, from, receiver, net, cpu, transfer).Commit? {
      var account := if transfer then receiver else from;
      BookedIs(c, e, from, receiver, net, cpu, transfer);
      BookedOwners(c.ledger, from, receiver, net, cpu, transfer, e.Now(), accounts);
      ReweighedFrame(S.ChangeBandwidth(c, e, from, receiver, net, cpu, transfer).value, account,
                     VoteWeight.Weight(Polls.StakeOf(c.book.voters, account)), e.Now());
    }
    if S.Undelegate(c, e, from, receiver, net, cpu).Commit? {
      BookedIs(c, e, from, receiver, -net, -cpu, false);
      BookedOwners(c.ledger, from, receiver, -net, -cpu, false, e.Now(), accounts);
      ReweighedFrame(S.ChangeBandwidth(c, e, from, receiver, -net, -cpu, false).value, from,
                     VoteWeight.Weight(Polls.StakeOf(c.book.voters, from)), e.Now());
    }
  }

  lemma {:induction false} TradeOwners(c: S.Core, s: R.State, e: S.Env, payer: Name, receiver: Name, amount: int,
                                       accounts: set<Name>)
    requires R.Live(s.market) && Owners(c.ledger, accounts)
    ensures var r := R.BuyRam(c, s, e, payer, receiver, amount);
      r.Commit? && receiver in accounts ==> Owners(r.value.0.ledger, accounts)
    ensures var r := R.SellRam(c, s, e, payer, amount); r.Commit? ==> Owners(r.value.0.ledger, accounts)
  {
    hide S.Pay, X.Swap;
  }

  lemma {:induction false} BytesOwners(c: S.Core, s: R.State, e: S.Env, payer: Name, receiver: Name, bytes: nat,
                                       accounts: set<Name>)
    requires R.Live(s.market) && s.market.base + bytes > 0 && Owners(c.ledger, accounts) && receiver in accounts
    ensures var r := R.BuyRamBytes(c, s, e, payer, receiver, bytes); r.Commit? ==> Owners(r.value.0.ledger, accounts)
  {
    hide R.BuyRam, X.Swap, Owners;
    TradeOwners(c, s, e, payer, receiver, X.Swap(s.market, X.Ram, bytes).1, accounts);
  }

  lemma {:induction false} MarketPresent(s: State, scale: real, auths: set<Name>, a: Action)
    requires Present(s) && Ready(s) && Legal(s, a) && IsMarket(a)
    ensures var r := Apply(s, scale, auths, a); r.Commit? ==> Present(r.value) && r.value.accounts == s.accounts
  {
    hide Sound, Owners, Payers, Bidders, S.Delegate, S.Undelegate, S.VoteProducer, V.RegProxy, Polls.VoteProposal;
    hide R.BuyRam, R.BuyRamBytes, R.SellRam, R.SetRam, Token.Apply, S.Pay, S.Refund, UpdateVotes;
    match a {
      case Delegate(from, receiver, net, cpu, transfer) =>
        StakingOwners(s.core, s.Env(scale), from, receiver, net, cpu, transfer, s.accounts);
      case Undelegate(from, receiver, net, cpu) =>
        StakingOwners(s.core, s.Env(scale), from, receiver, net, cpu, false, s.accounts);
      case Refund(owner) => RefundOwners(s.core, s.Env(scale), owner, s.accounts);
      case VoteProducer(voter, proxy, producers) => VoteOwners(s.core, s.Env(scale), voter, proxy, producers);
      case BuyRam(payer, receiver, quant) => TradeOwners(s.core, s.ram, s.Env(scale), payer, receiver, quant, s.accounts);
      case BuyRamBytes(payer, receiver, bytes) => BytesOwners(s.core, s.ram, s.Env(scale), payer, receiver, bytes, s.accounts);
      case SellRam(owner, sold) => TradeOwners(s.core, s.ram, s.Env(scale), owner, owner, sold, s.accounts);
      case _ =>
    }
  }

  lemma {:induction false} RefundOwners(c: S.Core, e: S.Env, owner: Name, accounts: set<Name>)
    requires Owners(c.ledger, accounts)
    ensures var r := S.Refund(c, e, owner); r.Commit? ==> Owners(r.value.ledger, accounts)
  {
    hide S.Pay;
  }

  lemma {:induction false} VoteOwners(c: S.Core, e: S.Env, voter: Name, proxy: Name, producers: seq<Name>)
    requires Sound(c.book)
    ensures var r := S.VoteProducer(c, e, voter, proxy, producers); r.Commit? ==> r.value.ledger == c.ledger
  {
    hide UpdateVotes, Sound;
  }

  lemma {:induction false} NodesPresent(t: Token.State, gs: G.GNodes, proposals: map<nat, Polls.Proposal>, e: S.Env,
                                        payer: Name, owner: Name,
                                        key: nat, url: string, location: nat, accounts: set<Name>)
    requires Payers(gs, accounts)
    ensures var r := G.StakeToGnode(t, gs, e, payer, owner, key, url, location);
      r.Commit? && payer in accounts ==> Payers(r.value.1, accounts)
    ensures var r := G.UnstakeGnode(t, gs, proposals, e, owner); r.Commit? ==> Payers(r.value.1, accounts)
    ensures var r := G.UpdateGnode(gs, owner, key, url, location); r.Commit? ==> Payers(r.value, accounts)
  {
    hide S.Pay, G.Uninvolved;
  }

  lemma {:induction false} ExecPresent(x: G.Effect, polls: Polls.Tables, e: S.Env, auths: set<Name>, owner: Name,
                                       id: nat, accounts: set<Name>)
    requires Payers(x.gnodes, accounts)
    ensures var r := G.ExecProposal(x, polls, e, auths, owner, id); r.Commit? ==> Payers(r.value.0.gnodes, accounts)
  {
    hide G.Passes, G.ProducersSize, G.RegProducer, G.UnregProd;
  }

  lemma {:induction false} BidsPresent(t: Token.State, bids: A.Bids, e: S.Env, bidder: Name, name: Name, amount: int,
                                       accounts: set<Name>)
    requires Bidders(bids, accounts) && bidder in accounts
    ensures var r := A.PlaceBid(t, bids, e, bidder, name, amount); r.Commit? ==> Bidders(r.value.1, accounts)
  {
    hide S.Pay, A.Biddable;
  }

  lemma {:induction false} BlockPresent(t: B.Tables, stake: int, num: int, threshold: nat, micros: nat, slot: int,
                                        producer: Name,
                                        first: Name, accounts: set<Name>)
    requires Bidders(t.bids, accounts) && (t.bids != map[] ==> A.IsFirst(t.bids, first))
    ensures Bidders(B.OnBlock(t, stake, num, threshold, micros, slot, producer, first).bids, accounts)
  {
    hide A.CanClose, G.CountBlock;
  }

  lemma {:induction false} ClaimPresent(l: S.Ledger, bids: A.Bids, accounts: set<Name>, creator: Name, name: Name)
    requires Owners(l, accounts) && Bidders(bids, accounts)
    ensures var r := A.NewAccount(l, bids, accounts, creator, name);
      r.Commit? ==> Owners(r.value.0, accounts + {name}) && Bidders(r.value.1, accounts + {name})
  {
    hide A.HasDot, A.Suffix;
  }

  lemma {:induction false} GovernancePresent(s: State, scale: real, auths: set<Name>, a: Action)
    requires Present(s) && Ready(s) && Legal(s, a) && !IsMarket(a)
    ensures var r := Apply(s, scale, auths, a); r.Commit? ==> Present(r.value) && s.accounts <= r.value.accounts
  {
    hide Ready, Owners, Payers, Bidders, G.IsAvailable, A.IsFirst;
    hide G.StakeToGnode, G.UnstakeGnode, G.UpdateGnode, G.NewProposal, G.ExecProposal, G.RmvProducer, B.OnBlock;
    hide G.ClaimRewards;
    hide A.PlaceBid, A.NewAccount;
    var e := s.Env(scale);
    match a {
      case StakeToGnode(payer, owner, key, url, location) =>
        NodesPresent(s.core.token, s.gnodes, s.core.polls.proposals, e, payer, owner, key, url, location, s.accounts);
      case UnstakeGnode(owner) =>
        NodesPresent(s.core.token, s.gnodes, s.core.polls.proposals, e, owner, owner, 0, "", 0, s.accounts);
      case UpdateGnode(owner, key, url, location) =>
        NodesPresent(s.core.token, s.gnodes, s.core.polls.proposals, e, owner, owner, key, url, location, s.accounts);
      case ExecProposal(owner, id) => ExecPresent(s.Governed(), s.core.polls, e, auths, owner, id, s.accounts);
      case OnBlock(slot, producer, first) =>
        BlockPresent(s.Blocks(), s.core.polls.stake, s.producerNum, s.core.threshold, s.micros, slot, producer, first, s.accounts);
      case BidName(bidder, name, amount) => BidsPresent(s.core.token, s.bids, e, bidder, name, amount, s.accounts);
      case NewAccount(creator, name) =>
        ClaimPresent(s.core.ledger, s.bids, s.accounts, creator, name);
        MorePayers(s.gnodes, s.accounts, name);
      case _ =>
    }
  }

  lemma {:induction false} MorePayers(gs: G.GNodes, accounts: set<Name>, name: Name)
    requires Payers(gs, accounts)
    ensures Payers(gs, accounts + {name})
  {
  }

  /** Every legal event keeps everybody who may be paid among the accounts, and no account vanishes. */
  lemma {:induction false} NextPresent(s: State, ev: Event, s': State, opening: nat)
    requires Inv(s, opening) && Present(s) && Next(s, ev, s')
    ensures Present(s') && s.accounts <= s'.accounts
  {
    hide Inv, Legal, Ready, Apply, IsMarket, Owners, Payers, Bidders;
    TimePasses(s, ev.micros, opening);
    var s1 := At(s, ev.micros);
    if IsMarket(ev.action) {
      MarketPresent(s1, ev.scale, ev.auths, ev.action);
    } else {
      GovernancePresent(s1, ev.scale, ev.auths, ev.action);
    }
  }
}
