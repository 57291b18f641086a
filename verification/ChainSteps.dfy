/** The remaining actions of the whole state: tokens, RAM, governance, blocks and names; and the theorem
    that every legal event keeps every invariant. */
module ChainSteps {
  import opened Base
  import opened Votes
  import V = Votes
  import Polls
  import Token
  import S = Staking
  import opened StakingLaws
  import R = RamMarket
  import opened RamLaws
  import G = Governance
  import opened GovernanceLaws
  import A = Auctions
  import opened AuctionLaws
  import B = Blocks
  import X = Exchange
  import opened Chain
  import opened ChainLaws

  // ---------------------------------------------------------------- tokens

  lemma {:induction false} TokenStep(s: State, t: Token.State, who: set<Name>, opening: nat)
    requires Inv(s, opening) && Token.Sound(t) && CoreLive(t) && Spends(s.core.token, t, who)
    ensures Inv(s.WithToken(t), opening) && Covered(s, s.WithToken(t), who)
  {
    hide RamSound, GovSound, RewardsSound, AuctionSound, SameRegister, SameProposals, SameQuotas, Covered, S.Funds, Sum;
    hide Token.Sound, Sound, Polls.Sound, LedgerSound;
    SameTables(s.core);
    SpendsMore(s.core.token, t, who, who + {STAKE});
    assert STAKE !in who ==> S.Funds(s.core.token, STAKE) <= S.Funds(t, STAKE);
    CoreStep(s, s.core.(token := t), who, opening);
  }

  lemma {:induction false} TokenActionEffect(t: Token.State, accounts: set<Name>, a: Token.Action)
    requires Token.Sound(t) && CoreLive(t)
    ensures var r := Token.Apply(t, accounts, a);
      r.Commit? ==> Token.Sound(r.value) && CoreLive(r.value) && Spends(t, r.value, Sender(TokenAction(a)))
  {
    hide Token.Sound, Token.Transfer, Token.Issue;
    match a {
      case DoCreate(issuer, maxSupply) => Token.CreateSound(t, issuer, maxSupply);
      case DoIssue(to, q, memo) => Token.IssueIff(t, accounts, to, q, memo);
      case DoTransfer(from, to, q, memo) =>
        if Token.Transfer(t, accounts, from, to, q, memo).Commit? {
          Token.TransferIff(t, accounts, from, to, q, memo);
          Token.TransferSound(t, accounts, from, to, q, memo);
          Token.TransferMoves(t, accounts, from, to, q, memo);
          var t' := Token.Transfer(t, accounts, from, to, q, memo).value;
          forall o: Name | o != from ensures S.Funds(t, o) <= S.Funds(t', o) {
            assert Token.Balance(t', o, Token.CORE.code) >= Token.Balance(t, o, Token.CORE.code);
          }
        }
    }
  }

  lemma {:induction false} TokenActionStep(s: State, a: Token.Action, opening: nat)
    requires Inv(s, opening)
    ensures var r := Token.Apply(s.core.token, s.accounts, a);
      r.Commit? ==> Inv(s.WithToken(r.value), opening) && Covered(s, s.WithToken(r.value), Sender(TokenAction(a)))
  {
    hide RamSound, GovSound, RewardsSound, AuctionSound, S.Funds, Sum, Token.Sound, Sound, Polls.Sound, LedgerSound;
    hide Covered, Spends, Token.Apply;
    TokenActionEffect(s.core.token, s.accounts, a);
    var r := Token.Apply(s.core.token, s.accounts, a);
    if r.Commit? { TokenStep(s, r.value, Sender(TokenAction(a)), opening); }
  }

  // ---------------------------------------------------------------- RAM

  lemma {:induction false} BuyShape(c: S.Core, s: R.State, e: S.Env, payer: Name, receiver: Name, quant: int)
    requires R.Live(s.market) && R.BuyRam(c, s, e, payer, receiver, quant).Commit?
    ensures var (c', s') := R.BuyRam(c, s, e, payer, receiver, quant).value;
      c' == c.(token := c'.token, ledger := R.AddRam(c.ledger, receiver, s'.reserved - s.reserved))
  {
    hide S.Pay, X.Swap;
  }

  lemma {:induction false} SellShape(c: S.Core, s: R.State, e: S.Env, owner: Name, sold: int)
    requires R.Live(s.market) && R.SellRam(c, s, e, owner, sold).Commit?
    ensures var (c', s') := R.SellRam(c, s, e, owner, sold).value;
      c' == c.(token := c'.token, ledger := R.AddRam(c.ledger, owner, s'.reserved - s.reserved))
  {
    hide S.Pay, X.Swap;
  }

  /** A trade of RAM: one quota row, the market and the tokens. */
  lemma {:induction false} RamStep(s: State, t: Token.State, owner: Name, bytes: int, ram: R.State, who: set<Name>,
                                   opening: nat)
    requires Inv(s, opening) && Token.Sound(t) && CoreLive(t) && Spends(s.core.token, t, who + {RAM})
    requires RamSound(ram, R.AddRam(s.core.ledger, owner, bytes).userres, opening)
    requires RamSlack(t, ram) == RamSlack(s.core.token, s.ram)
    ensures var s' := s.(core := s.core.(token := t, ledger := R.AddRam(s.core.ledger, owner, bytes)), ram := ram);
      Inv(s', opening) && Covered(s, s', who)
  {
    hide RamSound, GovSound, RewardsSound, AuctionSound, S.Funds, Sum, Token.Sound, Sound, Polls.Sound, LedgerSound;
    AddRamKeepsLedger(s.core.ledger, s.core.book.voters, owner, bytes);
    assert STAKE !in who ==> S.Funds(s.core.token, STAKE) <= S.Funds(t, STAKE);
    assert BPSTK !in who ==> S.Funds(s.core.token, BPSTK) <= S.Funds(t, BPSTK);
    assert NAMES !in who ==> S.Funds(s.core.token, NAMES) <= S.Funds(t, NAMES);
  }

  lemma {:induction false} BuyRamStep(s: State, scale: real, payer: Name, receiver: Name, quant: int, opening: nat)
    requires Inv(s, opening) && Ready(s)
    ensures var r := R.BuyRam(s.core, s.ram, s.Env(scale), payer, receiver, quant);
      r.Commit? ==> var s' := s.(core := r.value.0, ram := r.value.1); Inv(s', opening) && Covered(s, s', {payer})
  {
    hide RamSound, GovSound, RewardsSound, AuctionSound, S.Funds, Sum, Token.Sound, Sound, Polls.Sound, LedgerSound;
    hide Covered;
    hide R.BuyRam, R.AddRam, RamSlack;
    var c, e := s.core, s.Env(scale);
    var r := R.BuyRam(c, s.ram, e, payer, receiver, quant);
    if r.Commit? {
      BuyRamSound(c, s.ram, e, payer, receiver, quant, opening);
      BuyRamTokens(c, s.ram, e, payer, receiver, quant);
      BuyShape(c, s.ram, e, payer, receiver, quant);
      RamStep(s, r.value.0.token, receiver, r.value.1.reserved - s.ram.reserved, r.value.1, {payer}, opening);
    }
  }

  lemma {:induction false} BuyRamBytesStep(s: State, scale: real, payer: Name, receiver: Name, bytes: nat, opening: nat)
    requires Inv(s, opening) && Ready(s) && s.ram.market.base + bytes > 0
    ensures var r := R.BuyRamBytes(s.core, s.ram, s.Env(scale), payer, receiver, bytes);
      r.Commit? ==> var s' := s.(core := r.value.0, ram := r.value.1); Inv(s', opening) && Covered(s, s', {payer})
  {
    hide Inv, Covered, R.BuyRam, X.Swap;
    BuyRamStep(s, scale, payer, receiver, X.Swap(s.ram.market, X.Ram, bytes).1, opening);
  }

  lemma {:induction false} SellRamStep(s: State, scale: real, owner: Name, sold: int, opening: nat)
    requires Inv(s, opening) && Ready(s)
    ensures var r := R.SellRam(s.core, s.ram, s.Env(scale), owner, sold);
      r.Commit? ==> var s' := s.(core := r.value.0, ram := r.value.1); Inv(s', opening) && Covered(s, s', {owner})
  {
    hide RamSound, GovSound, RewardsSound, AuctionSound, S.Funds, Sum, Token.Sound, Sound, Polls.Sound, LedgerSound;
    hide Covered;
    hide R.SellRam, R.AddRam, RamSlack;
    var c, e := s.core, s.Env(scale);
    var r := R.SellRam(c, s.ram, e, owner, sold);
    if r.Commit? {
      SellRamSound(c, s.ram, e, owner, sold, opening);
      SellRamTokens(c, s.ram, e, owner, sold);
      SellShape(c, s.ram, e, owner, sold);
      RamStep(s, r.value.0.token, owner, r.value.1.reserved - s.ram.reserved, r.value.1, {owner}, opening);
    }
  }

  lemma {:induction false} SetRamStep(s: State, maxRam: nat, who: set<Name>, opening: nat)
    requires Inv(s, opening)
    ensures var r := R.SetRam(s.ram, maxRam);
      r.Commit? ==> Inv(s.(ram := r.value), opening) && Covered(s, s.(ram := r.value), who)
  {
    hide RamSound, GovSound, RewardsSound, AuctionSound, S.Funds, Sum, CoreSound;
    SetRamSound(s.ram, s.core.ledger.userres, maxRam, opening);
  }

  // ---------------------------------------------------------------- governance nodes

  /** A payment and a change of the nodes. */
  lemma {:induction false} NodeStep(s: State, t: Token.State, gs: G.GNodes, who: set<Name>, opening: nat)
    requires Inv(s, opening) && Token.Sound(t) && CoreLive(t) && Spends(s.core.token, t, who + {BPSTK})
    requires GovSound(s.Governed().(gnodes := gs), s.core.polls.proposals, s.Now())
    requires NodeSlack(s.core.token, s.gnodes) <= NodeSlack(t, gs)
    ensures var s' := s.WithToken(t).(gnodes := gs); Inv(s', opening) && Covered(s, s', who)
  {
    hide RamSound, GovSound, RewardsSound, AuctionSound, S.Funds, Sum, Token.Sound, Sound, Polls.Sound, LedgerSound;
    hide Spends;
    hide Slack, RamSlack, NodeSlack, NamesSlack;
    TokenStep(s, t, who + {BPSTK}, opening);
  }

  lemma {:induction false} StakeToGnodeStep(s: State, scale: real, payer: Name, owner: Name, key: nat, url: string,
                                            location: nat, opening: nat)
    requires Inv(s, opening)
    ensures var r := G.StakeToGnode(s.core.token, s.gnodes, s.Env(scale), payer, owner, key, url, location);
      r.Commit? ==> var s' := s.WithToken(r.value.0).(gnodes := r.value.1); Inv(s', opening) && Covered(s, s', {payer})
  {
    hide RamSound, GovSound, RewardsSound, AuctionSound, S.Funds, Sum, Token.Sound, Sound, Polls.Sound, LedgerSound;
    hide Covered;
    hide S.Pay, NodeSlack;
    var t, e := s.core.token, s.Env(scale);
    var r := G.StakeToGnode(t, s.gnodes, e, payer, owner, key, url, location);
    if r.Commit? {
      StakeToGnodeSound(t, s.Governed(), s.core.polls.proposals, e, payer, owner, key, url, location);
      PayEffect(t, e, payer, BPSTK, G.GNODE_FEE);
      NodeStep(s, r.value.0, r.value.1, {payer}, opening);
    }
  }

  lemma {:induction false} UnstakeGnodeStep(s: State, scale: real, owner: Name, opening: nat)
    requires Inv(s, opening)
    ensures var r := G.UnstakeGnode(s.core.token, s.gnodes, s.core.polls.proposals, s.Env(scale), owner);
      r.Commit? ==> var s' := s.WithToken(r.value.0).(gnodes := r.value.1); Inv(s', opening) && Covered(s, s', {owner})
  {
    hide RamSound, GovSound, RewardsSound, AuctionSound, S.Funds, Sum, Token.Sound, Sound, Polls.Sound, LedgerSound;
    hide Covered;
    hide S.Pay, NodeSlack, G.Uninvolved;
    var t, e := s.core.token, s.Env(scale);
    var r := G.UnstakeGnode(t, s.gnodes, s.core.polls.proposals, e, owner);
    if r.Commit? {
      UnstakeGnodeSound(t, s.Governed(), s.core.polls.proposals, e, owner);
      PayEffect(t, e, BPSTK, s.gnodes[owner].payer, s.gnodes[owner].staked);
      NodeStep(s, r.value.0, r.value.1, {owner}, opening);
    }
  }

  lemma {:induction false} UpdateGnodeStep(s: State, owner: Name, key: nat, url: string, location: nat, opening: nat)
    requires Inv(s, opening)
    ensures var r := G.UpdateGnode(s.gnodes, owner, key, url, location);
      r.Commit? ==> var s' := s.(gnodes := r.value); Inv(s', opening) && Covered(s, s', {owner})
  {
    hide RamSound, GovSound, RewardsSound, AuctionSound, S.Funds, Sum, Token.Sound, Sound, Polls.Sound, LedgerSound;
    hide Covered;
    hide NodeSlack, G.UpdateGnode, Spends;
    var r := G.UpdateGnode(s.gnodes, owner, key, url, location);
    if r.Commit? {
      UpdateGnodeSound(s.Governed(), s.core.polls.proposals, owner, key, url, location, s.core.token, s.Now());
      SameTables(s.core);
      NodeStep(s, s.core.token, r.value, {owner}, opening);
      assert s.WithToken(s.core.token) == s;
    }
  }

  // ---------------------------------------------------------------- proposals

  lemma {:induction false} NewProposalStep(s: State, scale: real, owner: Name, account: Name, height: nat, kind: int,
                                           consensus: int,
                                           id: nat, opening: nat)
    requires Inv(s, opening) && G.IsAvailable(s.core.polls.proposals, id)
    ensures var r := G.NewProposal(s.core.token, s.gnodes, s.core.polls, s.Env(scale), owner, account, height, kind, consensus, id);
      r.Commit? ==> var s' := s.WithToken(r.value.0).WithPolls(r.value.1); Inv(s', opening) && Covered(s, s', {owner})
  {
    hide RamSound, GovSound, RewardsSound, AuctionSound, S.Funds, Sum, Token.Sound, Sound, Polls.Sound, LedgerSound;
    hide G.IsAvailable;
    hide S.Pay, Slack, RamSlack, NodeSlack, NamesSlack;
    var t, e := s.core.token, s.Env(scale);
    var r := G.NewProposal(t, s.gnodes, s.core.polls, e, owner, account, height, kind, consensus, id);
    if r.Commit? {
      NewProposalSound(t, s.Governed(), s.core.polls, s.core.book.voters, e, owner, account, height, kind, consensus, id);
      PayEffect(t, e, owner, PROP, G.PROPOSAL_FEE);
      SpendsFee(t, r.value.0, owner);
      TokenStep(s, r.value.0, {owner}, opening);
    }
  }

  /** The proposal account is not one of the pots. */
  lemma {:induction false} SpendsFee(t: Token.State, t': Token.State, owner: Name)
    requires forall o: Name {:trigger S.Funds(t', o)} ::
      S.Funds(t', o) == S.Funds(t, o) + (if o == PROP then G.PROPOSAL_FEE else 0) - (if o == owner then G.PROPOSAL_FEE else 0)
    ensures Spends(t, t', {owner})
  {
  }

  /** Producers registered, elected or removed: nobody's unpaid blocks change. */
  lemma {:induction false} UnpaidRow(ps: Producers, ps': Producers, p: Name, w: G.Rewards)
    requires RewardsSound(ps, w)
    requires forall x :: x != p ==> (x in ps <==> x in ps')
    requires forall x <- ps :: x != p ==> ps'[x] == ps[x]
    requires (if p in ps' then ps'[p].unpaid else 0) == if p in ps then ps[p].unpaid else 0
    ensures RewardsSound(ps', w)
  {
    hide Sum;
    SumChange(UnpaidColumn(ps), UnpaidColumn(ps'), p);
  }

  lemma {:induction false} CarryUnpaid(x: G.Effect, p: Polls.Proposal, auths: set<Name>, w: G.Rewards)
    requires RewardsSound(x.producers, w)
    ensures var r := G.Carry(x, p, auths); r.Commit? ==> RewardsSound(r.value.producers, w)
  {
    hide Sum, RewardsSound;
    var r := G.Carry(x, p, auths);
    if r.Commit? { UnpaidRow(x.producers, r.value.producers, p.account, w); }
  }

  /** Changes of producers and nodes that keep the stakes of the nodes. */
  lemma {:induction false} GovernedStep(s: State, x: G.Effect, polls: Polls.Tables, who: set<Name>, opening: nat)
    requires Inv(s, opening) && GovSound(x, polls.proposals, s.Now()) && Polls.Sound(polls, s.core.book.voters, s.Now())
    requires RewardsSound(x.producers, s.rewards) && NodeColumn(x.gnodes) == NodeColumn(s.gnodes)
    ensures var s' := s.WithGoverned(x).WithPolls(polls); Inv(s', opening) && Covered(s, s', who)
  {
    hide RamSound, GovSound, RewardsSound, AuctionSound, S.Funds, Sum, Token.Sound, Polls.Sound, LedgerSound, Acyclic;
    hide NodeColumn;
  }

  lemma {:induction false} ExecProposalStep(s: State, scale: real, auths: set<Name>, owner: Name, id: nat, opening: nat)
    requires Inv(s, opening)
    ensures var r := G.ExecProposal(s.Governed(), s.core.polls, s.Env(scale), auths, owner, id);
      r.Commit? ==> var s' := s.WithGoverned(r.value.0).WithPolls(r.value.1); Inv(s', opening) && Covered(s, s', {owner})
  {
    hide RamSound, GovSound, RewardsSound, AuctionSound, S.Funds, Sum, Token.Sound, Sound, Polls.Sound, LedgerSound;
    hide Covered;
    hide G.Carry, G.ProducersSize, G.Passes, NodeColumn;
    var e := s.Env(scale);
    var r := G.ExecProposal(s.Governed(), s.core.polls, e, auths, owner, id);
    if r.Commit? {
      ExecProposalSound(s.Governed(), s.core.polls, s.core.book.voters, e, auths, owner, id);
      CarryUnpaid(s.Governed(), s.core.polls.proposals[id], auths, s.rewards);
      GovernedStep(s, r.value.0, r.value.1, {owner}, opening);
    }
  }

  lemma {:induction false} RmvProducerStep(s: State, p: Name, opening: nat)
    requires Inv(s, opening)
    ensures var r := G.RmvProducer(s.core.book.producers, p);
      r.Commit? ==> var s' := s.WithProducers(r.value); Inv(s', opening) && Covered(s, s', {SYSTEM})
  {
    hide RamSound, GovSound, RewardsSound, AuctionSound, S.Funds, Sum, Token.Sound, Sound, Polls.Sound, LedgerSound;
    hide Covered;
    var r := G.RmvProducer(s.core.book.producers, p);
    if r.Commit? {
      RmvProducerSound(s.Governed(), s.core.polls.proposals, p, s.Now());
      UnpaidRow(s.core.book.producers, r.value, p, s.rewards);
      GovernedStep(s, s.Governed().(producers := r.value), s.core.polls, {SYSTEM}, opening);
      assert s.WithGoverned(s.Governed().(producers := r.value)).WithPolls(s.core.polls) == s.WithProducers(r.value);
    }
  }

  // ---------------------------------------------------------------- blocks and rewards

  /** The reward counters are no part of what backs a producer. */
  ghost predicate SameBacking(ps: Producers, ps': Producers) {
    && ps'.Keys == ps.Keys
    && forall p <- ps :: ps'[p].active == ps[p].active && ps'[p].key == ps[p].key && ps'[p].url == ps[p].url
                         && ps'[p].location == ps[p].location
  }

  lemma {:induction false} BackingFrame(x: G.Effect, ps: Producers, proposals: map<nat, Polls.Proposal>, now: nat)
    requires GovSound(x, proposals, now) && SameBacking(x.producers, ps)
    ensures GovSound(x.(producers := ps), proposals, now)
  {
    forall p | p in ps ensures Backed(ps, x.gnodes, p) { assert Backed(x.producers, x.gnodes, p); }
  }

  lemma {:induction false} OnBlockEffect(t: B.Tables, stake: int, num: int, threshold: nat, micros: nat, slot: int,
                                         producer: Name,
                                         first: Name, token: Token.State)
    requires RewardsSound(t.producers, t.rewards) && AuctionSound(t.bids) && (t.bids != map[] ==> A.IsFirst(t.bids, first))
    ensures var t' := B.OnBlock(t, stake, num, threshold, micros, slot, producer, first);
      && RewardsSound(t'.producers, t'.rewards) && AuctionSound(t'.bids) && SameBacking(t.producers, t'.producers)
      && NamesSlack(token, t'.bids) == NamesSlack(token, t.bids)
  {
    hide RewardsSound, AuctionSound, NamesSlack, A.CloseFirst, A.IsFirst;
    CountBlockSound(t.producers, t.rewards, producer);
    CloseSound(token, t.bids, first, micros, threshold);
  }

  lemma {:induction false} OnBlockStep(s: State, slot: int, producer: Name, first: Name, opening: nat)
    requires Inv(s, opening) && (s.bids != map[] ==> A.IsFirst(s.bids, first))
    ensures var t := B.OnBlock(s.Blocks(), s.core.polls.stake, s.producerNum, s.core.threshold, s.micros, slot, producer, first);
      Inv(s.WithBlocks(t), opening) && Covered(s, s.WithBlocks(t), {SYSTEM})
  {
    hide RamSound, GovSound, RewardsSound, AuctionSound, S.Funds, Sum, Token.Sound, Polls.Sound, LedgerSound, Acyclic;
    hide B.OnBlock, SameBacking, NamesSlack, NodeSlack, Slack;
    OnBlockEffect(s.Blocks(), s.core.polls.stake, s.producerNum, s.core.threshold, s.micros, slot, producer, first, s.core.token);
    var t := B.OnBlock(s.Blocks(), s.core.polls.stake, s.producerNum, s.core.threshold, s.micros, slot, producer, first);
    BackingFrame(s.Governed(), t.producers, s.core.polls.proposals, s.Now());
  }

  lemma {:induction false} ClaimRewardsStep(s: State, scale: real, owner: Name, opening: nat)
    requires Inv(s, opening)
    ensures var r := G.ClaimRewards(s.core.token, s.core.book.producers, s.rewards, s.core.polls.stake, s.Env(scale), owner);
      r.Commit? ==>
        var s' := s.WithToken(r.value.0).WithProducers(r.value.1).(rewards := r.value.2);
        Inv(s', opening) && Covered(s, s', {owner})
  {
    hide RamSound, GovSound, RewardsSound, AuctionSound, S.Funds, Sum, Token.Sound, Polls.Sound, LedgerSound, Acyclic;
    hide S.Pay, NamesSlack, NodeSlack, Slack, RamSlack;
    var t, e, ps := s.core.token, s.Env(scale), s.core.book.producers;
    var r := G.ClaimRewards(t, ps, s.rewards, s.core.polls.stake, e, owner);
    if r.Commit? {
      ClaimRewardsSound(t, ps, s.rewards, s.core.polls.stake, e, owner);
      BackingFrame(s.Governed(), r.value.1, s.core.polls.proposals, s.Now());
      TokenStep(s, r.value.0, {owner, BLKPAY}, opening);
    }
  }

  // ---------------------------------------------------------------- names

  lemma {:induction false} BidNameStep(s: State, scale: real, bidder: Name, name: Name, amount: int, opening: nat)
    requires Inv(s, opening)
    ensures var r := A.PlaceBid(s.core.token, s.bids, s.Env(scale), bidder, name, amount);
      r.Commit? ==> var s' := s.WithToken(r.value.0).(bids := r.value.1); Inv(s', opening) && Covered(s, s', {bidder})
  {
    hide RamSound, GovSound, RewardsSound, AuctionSound, S.Funds, Sum, Token.Sound, Sound, Polls.Sound, LedgerSound;
    hide A.PlaceBid;
    hide NamesSlack, NodeSlack, Slack, RamSlack;
    var r := A.PlaceBid(s.core.token, s.bids, s.Env(scale), bidder, name, amount);
    if r.Commit? {
      PlaceBidSound(s.core.token, s.bids, s.Env(scale), bidder, name, amount);
      TokenStep(s, r.value.0, {bidder, NAMES}, opening);
    }
  }

  /** The empty resource row of a new account stands for what a missing row stands for. */
  lemma {:induction false} EmptyRowKeepsLedger(l: S.Ledger, voters: Voters, name: Name)
    requires LedgerSound(l, voters) && name !in l.userres
    ensures var l' := l.(userres := l.userres[name := S.Resources(0, 0, 0)]);
      LedgerSound(l', voters) && SameQuotas(l.userres, l'.userres)
  {
    hide Sum, GiverSound, SameQuotas;
    var l' := l.(userres := l.userres[name := S.Resources(0, 0, 0)]);
    forall r: Name ensures ReceiverSound(l', r) { assert ReceiverSound(l, r); }
    OneQuotaRow(l.userres, l'.userres, name);
  }

  lemma {:induction false} NewAccountStep(s: State, creator: Name, name: Name, opening: nat)
    requires Inv(s, opening)
    ensures var r := A.NewAccount(s.core.ledger, s.bids, s.accounts, creator, name);
      r.Commit? ==>
        var s' := s.(core := s.core.(ledger := r.value.0), bids := r.value.1, accounts := s.accounts + {name});
        Inv(s', opening) && Covered(s, s', {creator})
  {
    hide RamSound, GovSound, RewardsSound, AuctionSound, S.Funds, Sum, Token.Sound, Sound, Polls.Sound, LedgerSound;
    hide SameQuotas;
    hide A.HasDot, A.Suffix, NamesSlack;
    var l := s.core.ledger;
    var r := A.NewAccount(l, s.bids, s.accounts, creator, name);
    if r.Commit? {
      NewAccountSound(s.core.token, l, s.bids, s.accounts, creator, name);
      EmptyRowKeepsLedger(l, s.core.book.voters, name);
      QuotaFrame(s.ram, l.userres, r.value.0.userres, opening);
    }
  }

  // ---------------------------------------------------------------- every event

  /** The actions on tokens, stakes, votes and RAM. */
  predicate IsMarket(a: Action) {
    || a.TokenAction? || a.Delegate? || a.Undelegate? || a.Refund? || a.VoteProducer? || a.RegProxy? || a.VoteProposal?
    || a.BuyRam? || a.BuyRamBytes? || a.SellRam? || a.SetRam?
  }

  lemma {:induction false} MarketKeeps(s: State, scale: real, auths: set<Name>, a: Action, opening: nat)
    requires Inv(s, opening) && Ready(s) && Legal(s, a) && IsMarket(a)
    ensures var r := Apply(s, scale, auths, a); r.Commit? ==> Inv(r.value, opening) && Covered(s, r.value, Sender(a))
  {
    hide Inv, Covered, Ready, S.Delegate, S.Undelegate, S.Refund, S.VoteProducer, V.RegProxy, Polls.VoteProposal;
    hide R.BuyRam, R.BuyRamBytes, R.SellRam, R.SetRam, Token.Apply;
    match a {
      case TokenAction(act) => TokenActionStep(s, act, opening);
      case Delegate(from, receiver, net, cpu, transfer) => DelegateStep(s, scale, from, receiver, net, cpu, transfer, opening);
      case Undelegate(from, receiver, net, cpu) => UndelegateStep(s, scale, from, receiver, net, cpu, opening);
      case Refund(owner) => RefundStep(s, scale, owner, opening);
      case VoteProducer(voter, proxy, producers) => VoteProducerStep(s, scale, voter, proxy, producers, opening);
      case RegProxy(voter, isProxy) => RegProxyStep(s, scale, voter, isProxy, opening);
      case VoteProposal(voter, id, yea) => VoteProposalStep(s, voter, id, yea, opening);
      case BuyRam(payer, receiver, quant) => BuyRamStep(s, scale, payer, receiver, quant, opening);
      case BuyRamBytes(payer, receiver, bytes) => BuyRamBytesStep(s, scale, payer, receiver, bytes, opening);
      case SellRam(owner, sold) => SellRamStep(s, scale, owner, sold, opening);
      case SetRam(maxRam) => SetRamStep(s, maxRam, {SYSTEM}, opening);
    }
  }

  lemma {:induction false} GovernanceKeeps(s: State, scale: real, auths: set<Name>, a: Action, opening: nat)
    requires Inv(s, opening) && Ready(s) && Legal(s, a) && !IsMarket(a)
    ensures var r := Apply(s, scale, auths, a); r.Commit? ==> Inv(r.value, opening) && Covered(s, r.value, Sender(a))
  {
    hide Inv, Covered, Ready, G.IsAvailable, A.IsFirst;
    hide G.StakeToGnode, G.UnstakeGnode, G.UpdateGnode, G.NewProposal, G.ExecProposal, G.RmvProducer, B.OnBlock;
    hide G.ClaimRewards;
    hide A.PlaceBid, A.NewAccount;
    match a {
      case StakeToGnode(payer, owner, key, url, location) => StakeToGnodeStep(s, scale, payer, owner, key, url, location, opening);
      case UnstakeGnode(owner) => UnstakeGnodeStep(s, scale, owner, opening);
      case UpdateGnode(owner, key, url, location) => UpdateGnodeStep(s, owner, key, url, location, opening);
      case NewProposal(owner, account, height, kind, consensus, id) =>
        NewProposalStep(s, scale, owner, account, height, kind, consensus, id, opening);
      case ExecProposal(owner, id) => ExecProposalStep(s, scale, auths, owner, id, opening);
      case RmvProducer(producer) => RmvProducerStep(s, producer, opening);
      case OnBlock(slot, producer, first) => OnBlockStep(s, slot, producer, first, opening);
      case ClaimRewards(owner) => ClaimRewardsStep(s, scale, owner, opening);
      case BidName(bidder, name, amount) => BidNameStep(s, scale, bidder, name, amount, opening);
      case NewAccount(creator, name) => NewAccountStep(s, creator, name, opening);
    }
  }

  /** Every action keeps every invariant, and no pot is worse covered unless its own account sent it. */
  lemma {:induction false} ApplyKeeps(s: State, scale: real, auths: set<Name>, a: Action, opening: nat)
    requires Inv(s, opening) && Ready(s) && Legal(s, a)
    ensures var r := Apply(s, scale, auths, a); r.Commit? ==> Inv(r.value, opening) && Covered(s, r.value, Sender(a))
  {
    hide *;
    if IsMarket(a) { MarketKeeps(s, scale, auths, a, opening); } else { GovernanceKeeps(s, scale, auths, a, opening); }
  }

  /** Every legal event keeps every invariant, whether its action commits or aborts. */
  lemma {:induction false} NextKeeps(s: State, ev: Event, s': State, opening: nat)
    requires Inv(s, opening) && Next(s, ev, s')
    ensures Ready(At(s, ev.micros)) && Inv(s', opening) && Covered(s, s', Sender(ev.action))
  {
    hide Inv, Ready, Legal, Apply, Slack, RamSlack, NodeSlack, NamesSlack;
    TimePasses(s, ev.micros, opening);
    ApplyKeeps(At(s, ev.micros), ev.scale, ev.auths, ev.action, opening);
  }
}
