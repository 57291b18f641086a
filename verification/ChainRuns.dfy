/** Whole runs of the system contract. */
module ChainRuns {
  import opened Base
  import opened Votes
  import V = Votes
  import VoteWeight
  import Polls
  import Token
  import S = Staking
  import opened StakingLaws
  import opened StakingEffects
  import R = RamMarket
  import opened RamLaws
  import G = Governance
  import opened GovernanceLaws
  import A = Auctions
  import opened AuctionLaws
  import B = Blocks
  import X = Exchange
  import opened Chain
  import opened ChainLaws
  import opened ChainSteps
  import opened ChainAccounts

  // ---------------------------------------------------------------- the start

  /** The chain once the core token has been issued and the RAM market opened. */
  function Genesis(token: Token.State, supply: nat, accounts: set<Name>, micros: nat): State {
    State(S.Core(token, S.Ledger(map[], map[], map[], map[]), Book(map[], map[], 0.0), Polls.Tables(map[], map[], 0, 0), 0),
          R.Opened(supply), map[], 0, 0, G.Rewards(0, 0), map[], B.Clock(0, 0, 0), accounts, micros)
  }

  lemma {:induction false} GenesisInv(token: Token.State, supply: nat, accounts: set<Name>, micros: nat)
    requires Token.Sound(token) && CoreLive(token)
    ensures var s := Genesis(token, supply, accounts, micros);
      && Inv(s, supply / 1000) && (FIXED <= accounts ==> Present(s))
      && StakeMargin(s) >= 0 && RamMargin(s) >= 0 && NodeMargin(s) >= 0 && NameMargin(s) >= 0
  {
    hide Token.Sound, S.Funds, Sum;
    var s := Genesis(token, supply, accounts, micros);
    OpenedSound(supply);
    EmptyBook();
    EmptyLedger();
    EmptyRest(s.core.book.voters);
    FundsNonNegative(token, STAKE);
    FundsNonNegative(token, RAM);
    FundsNonNegative(token, BPSTK);
    FundsNonNegative(token, NAMES);
  }

  lemma {:induction false} EmptyBook()
    ensures Sound(Book(map[], map[], 0.0))
  {
    var b := Book(map[], map[], 0.0);
    assert Edges(b.voters) == map[];
    assert Ranked(Edges(b.voters), map[]);
  }

  lemma {:induction false} EmptyLedger()
    ensures LedgerSound(S.Ledger(map[], map[], map[], map[]), map[])
    ensures Sum(OthersColumn(map[])) == 0 && Sum(PendingColumn(map[])) == 0
  {
    hide Sum;
    var l := S.Ledger(map[], map[], map[], map[]);
    forall r: Name ensures ReceiverSound(l, r) { SumZero(NetColumn(map[], r)); SumZero(CpuColumn(map[], r)); }
    forall f: Name ensures GiverSound(l.delband, map[], f) { SumZero(GivenColumn(map[], f)); }
    SumZero(OthersColumn(map[]));
    SumZero(PendingColumn(map[]));
  }

  lemma {:induction false} EmptyRest(voters: Voters)
    requires voters == map[]
    ensures forall now: nat :: Polls.Sound(Polls.Tables(map[], map[], 0, 0), voters, now)
    ensures RewardsSound(map[], G.Rewards(0, 0)) && AuctionSound(map[])
    ensures Sum(NodeColumn(map[])) == 0 && Sum(BidColumn(map[])) == 0
  {
    hide Sum;
    SumZero(Polls.WeightColumn(voters));
    SumZero(UnpaidColumn(map[]));
    SumZero(NodeColumn(map[]));
    SumZero(BidColumn(map[]));
  }

  // ---------------------------------------------------------------- every state

  /** Every state of every run satisfies every invariant. */
  lemma {:induction false} RunSound(states: seq<State>, events: seq<Event>, opening: nat, i: nat)
    requires IsRun(states, events) && Inv(states[0], opening) && i < |states|
    ensures Inv(states[i], opening)
    decreases i
  {
    hide Inv, Next;
    if i > 0 {
      RunSound(states, events, opening, i - 1);
      assert Next(states[i - 1], events[i - 1], states[i]);
      NextKeeps(states[i - 1], events[i - 1], states[i], opening);
    }
  }

  /** In every run nobody who may have to be paid is ever missing from the accounts. */
  lemma {:induction false} RunPresent(states: seq<State>, events: seq<Event>, opening: nat, i: nat)
    requires IsRun(states, events) && Inv(states[0], opening) && Present(states[0]) && i < |states|
    ensures Present(states[i])
    decreases i
  {
    hide Inv, Next, Present;
    if i > 0 {
      RunPresent(states, events, opening, i - 1);
      RunSound(states, events, opening, i - 1);
      assert Next(states[i - 1], events[i - 1], states[i]);
      NextPresent(states[i - 1], events[i - 1], states[i], opening);
    }
  }

  /** The four pots of tokens the contract keeps for its users. */
  ghost function Margin(s: State, pot: Name): int {
    if pot == STAKE then StakeMargin(s)
    else if pot == RAM then RamMargin(s)
    else if pot == BPSTK then NodeMargin(s)
    else if pot == NAMES then NameMargin(s)
    else 0
  }

  /** What a pot holds beyond what it owes never decreases in a stretch of a run in which its own account
      sends nothing. */
  lemma {:induction false} RunCovered(states: seq<State>, events: seq<Event>, opening: nat, pot: Name, i: nat, j: nat)
    requires IsRun(states, events) && Inv(states[0], opening) && i <= j < |states|
    requires forall k | i <= k < j :: pot !in Sender(events[k].action)
    ensures Margin(states[i], pot) <= Margin(states[j], pot)
    decreases j - i
  {
    hide Inv, Next, StakeMargin, RamMargin, NodeMargin, NameMargin, Sender;
    if i < j {
      RunCovered(states, events, opening, pot, i, j - 1);
      RunSound(states, events, opening, j - 1);
      assert Next(states[j - 1], events[j - 1], states[j]);
      NextKeeps(states[j - 1], events[j - 1], states[j], opening);
      assert pot !in Sender(events[j - 1].action);
    }
  }

  /** In every run in which the stake account itself sends nothing, every matured refund can be paid, at
      any time; and what is paid is the whole request, from the stake account to the owner of the request. */
  lemma {:induction false} RefundsAlwaysPaid(states: seq<State>, events: seq<Event>, opening: nat, i: nat,
                                             scale: real, owner: Name)
    requires IsRun(states, events) && Inv(states[0], opening) && Present(states[0]) && Margin(states[0], STAKE) >= 0
    requires i < |states|
    requires forall k | 0 <= k < i :: STAKE !in Sender(events[k].action)
    ensures var s := states[i];
      var r, row := S.Refund(s.core, s.Env(scale), owner), S.RefundOf(s.core.ledger.refunds, owner);
      && (r.Commit? <==> owner in s.core.ledger.refunds && row.time + 259200 <= s.Now())
      && (r.Commit? ==>
            && r.value.ledger.refunds == s.core.ledger.refunds - {owner}
            && forall o: Name {:trigger S.Funds(r.value.token, o)} :: S.Funds(r.value.token, o) == S.Funds(s.core.token, o)
                 + (if o == owner then row.net + row.cpu else 0) - (if o == STAKE then row.net + row.cpu else 0))
  {
    hide Token.Sound, Sound, LedgerSound, Polls.Sound, RamSound, GovSound, RewardsSound, AuctionSound, Slack, IsRun;
    hide Sender, S.Pay, S.Refund, S.Funds;
    RunSound(states, events, opening, i);
    RunPresent(states, events, opening, i);
    RunCovered(states, events, opening, STAKE, 0, i);
    var c, e := states[i].core, states[i].Env(scale);
    RefundPays(c, e, owner);
    if owner in states[i].accounts { RefundIff(c, e, owner); } else { NoRequest(c, e, owner); }
  }

  lemma {:induction false} NoRequest(c: S.Core, e: S.Env, owner: Name)
    requires owner !in c.ledger.refunds
    ensures S.Refund(c, e, owner).Abort?
  {
  }

  /** In every run in which the RAM account itself sends nothing, any quota can be sold back for whatever
      the market pays for it. */
  lemma {:induction false} RamAlwaysSells(states: seq<State>, events: seq<Event>, opening: nat, i: nat, scale: real,
                                          owner: Name, sold: int)
    requires IsRun(states, events) && Inv(states[0], opening) && Present(states[0]) && Margin(states[0], RAM) >= 0
    requires i < |states|
    requires forall k | 0 <= k < i :: RAM !in Sender(events[k].action)
    ensures var s := states[i];
      R.Live(s.ram.market) &&
      (R.SellRam(s.core, s.ram, s.Env(scale), owner, sold).Commit? <==>
         && sold > 0 && owner in s.core.ledger.userres && sold <= s.core.ledger.userres[owner].ram
         && X.Swap(s.ram.market, X.Ram, sold).1 > 1 && owner != RAM && owner != RAMFEE)
  {
    hide Token.Sound, Sound, LedgerSound, Polls.Sound, RamSound, GovSound, RewardsSound, AuctionSound, IsRun, Sender;
    hide X.Swap, S.Funds, S.Pay;
    RunSound(states, events, opening, i);
    RunPresent(states, events, opening, i);
    RunCovered(states, events, opening, RAM, 0, i);
    RamLive(states[i], opening);
    if owner in states[i].accounts { SellRamIff(states[i].core, states[i].ram, states[i].Env(scale), owner, sold, opening); }
  }

  /** In every reachable state buyram commits exactly when the payer has what is offered, is neither of the
      two fee accounts, and the market gives at least one byte for the offer less the fee. */
  lemma {:induction false} RamAlwaysBuys(states: seq<State>, events: seq<Event>, opening: nat, i: nat, scale: real,
                                         payer: Name, receiver: Name, quant: int)
    requires IsRun(states, events) && Inv(states[0], opening) && Present(states[0]) && i < |states|
    ensures var s := states[i];
      R.Live(s.ram.market) &&
      (R.BuyRam(s.core, s.ram, s.Env(scale), payer, receiver, quant).Commit? <==>
         && 1 < quant <= S.Funds(s.core.token, payer) && payer != RAM && payer != RAMFEE
         && X.Swap(s.ram.market, X.Core, quant - R.Fee(quant)).1 > 0)
  {
    hide Token.Sound, Sound, LedgerSound, Polls.Sound, RamSound, GovSound, RewardsSound, AuctionSound, IsRun;
    hide R.BuyRam, X.Swap, S.Funds;
    hide Owners, Payers, Bidders;
    RunSound(states, events, opening, i);
    RunPresent(states, events, opening, i);
    RamLive(states[i], opening);
    BuyRamIff(states[i].core, states[i].ram, states[i].Env(scale), payer, receiver, quant);
  }

  /** In every run in which the node pot itself sends nothing, a node that is no producer and is involved
      in no open proposal always gets its stake back. */
  lemma {:induction false} NodesAlwaysLeave(states: seq<State>, events: seq<Event>, opening: nat, i: nat, scale: real,
                                            owner: Name)
    requires IsRun(states, events) && Inv(states[0], opening) && Present(states[0]) && Margin(states[0], BPSTK) >= 0
    requires i < |states|
    requires forall k | 0 <= k < i :: BPSTK !in Sender(events[k].action)
    ensures var s := states[i];
      G.UnstakeGnode(s.core.token, s.gnodes, s.core.polls.proposals, s.Env(scale), owner).Commit?
      <==> && owner in s.gnodes && !s.gnodes[owner].isBp
           && forall id <- s.core.polls.proposals :: s.Now() < s.core.polls.proposals[id].voteEnd ==>
                s.core.polls.proposals[id].owner != owner && s.core.polls.proposals[id].account != owner
  {
    hide Token.Sound, Sound, LedgerSound, Polls.Sound, RamSound, GovSound, RewardsSound, AuctionSound, G.UnstakeGnode;
    hide IsRun, Sender;
    hide G.Uninvolved, S.Funds, Sum, Owners, Bidders;
    RunSound(states, events, opening, i);
    RunPresent(states, events, opening, i);
    RunCovered(states, events, opening, BPSTK, 0, i);
    var s := states[i];
    UnstakeGnodeIff(s.core.token, s.Governed(), s.core.polls.proposals, s.Env(scale), owner);
  }

  /** In every run in which the auction account itself sends nothing, a bid is accepted exactly when the name
      can be bid on, the bidder can pay, and a standing bid is open, beaten by enough and another account's:
      the refund of the beaten bid cannot fail. */
  lemma {:induction false} BidsAlwaysRefunded(states: seq<State>, events: seq<Event>, opening: nat, i: nat, scale: real,
                                              bidder: Name, name: Name, amount: int)
    requires IsRun(states, events) && Inv(states[0], opening) && Present(states[0]) && Margin(states[0], NAMES) >= 0
    requires i < |states|
    requires forall k | 0 <= k < i :: NAMES !in Sender(events[k].action)
    ensures var s := states[i];
      A.PlaceBid(s.core.token, s.bids, s.Env(scale), bidder, name, amount).Commit? <==>
        && A.Biddable(name, s.accounts) && bidder != NAMES && 0 < amount <= S.Funds(s.core.token, bidder)
        && (name in s.bids ==>
              s.bids[name].high > 0 && 10 * amount > 11 * s.bids[name].high && s.bids[name].bidder != bidder)
  {
    hide Token.Sound, Sound, LedgerSound, Polls.Sound, RamSound, GovSound, RewardsSound, AuctionSound, A.PlaceBid;
    hide IsRun, Sender;
    hide A.Biddable, S.Funds, Sum, Owners, Payers;
    RunSound(states, events, opening, i);
    RunPresent(states, events, opening, i);
    RunCovered(states, events, opening, NAMES, 0, i);
    PlaceBidIff(states[i].core.token, states[i].bids, states[i].Env(scale), bidder, name, amount);
  }

  /** In every reachable state the RAM market is worth what it opened with for every byte there is, and
      the assert against a negative RAM stake cannot fire. */
  lemma {:induction false} RunRamMarket(states: seq<State>, events: seq<Event>, opening: nat, i: nat, scale: real,
                                        owner: Name, sold: int)
    requires IsRun(states, events) && Inv(states[0], opening) && i < |states|
    ensures var s := states[i];
      && opening * s.ram.maxRam <= s.ram.market.base * s.ram.market.quote
      && 0 <= s.ram.stake == s.ram.market.quote - opening
      && Sum(RamColumn(s.core.ledger.userres)) == s.ram.reserved == s.ram.maxRam - s.ram.market.base
      && R.Live(s.ram.market) && R.SellRam(s.core, s.ram, s.Env(scale), owner, sold) != Abort(RamStakeNegative)
  {
    hide CoreSound, GovSound, RewardsSound, AuctionSound, R.SellRam, IsRun, Sum;
    RunSound(states, events, opening, i);
    SellRamSound(states[i].core, states[i].ram, states[i].Env(scale), owner, sold, opening);
  }

  // ---------------------------------------------------------------- consequences

  /** No stake is negative, so in every reachable state the votes on an open proposal stay within the
      total. */
  lemma {:induction false} StakesNonNegative(l: S.Ledger, voters: Voters)
    requires LedgerSound(l, voters)
    ensures Polls.NoDebt(voters)
  {
    hide Sum, ReceiverSound;
    forall v | v in voters ensures voters[v].staked >= 0 {
      assert GiverSound(l.delband, voters, v);
      SumNonNegative(GivenColumn(l.delband, v));
    }
  }

  /** The total of all voters is not negative. */
  lemma {:induction false} StakeNonNegative(s: State, opening: nat)
    requires Inv(s, opening)
    ensures 0 <= s.core.polls.stake
  {
    hide Token.Sound, Sound, RowsSound, ReceiverSound, RamSound, GovSound, Sum, VoteWeight.Weight;
    hide RewardsSound, AuctionSound;
    var voters := s.core.book.voters;
    StakesNonNegative(s.core.ledger, voters);
    forall v | v in voters ensures VoteWeight.Weight(voters[v].staked) >= 0 { VoteWeight.WeightClosedForm(voters[v].staked); }
    SumNonNegative(Polls.WeightColumn(voters));
  }

  lemma {:induction false} RunTurnout(states: seq<State>, events: seq<Event>, opening: nat, i: nat, id: nat)
    requires IsRun(states, events) && Inv(states[0], opening) && i < |states|
    requires id in states[i].core.polls.proposals && Polls.Open(states[i].core.polls.proposals[id], states[i].Now())
    ensures var t := states[i].core.polls;
      && t.proposals[id].yeas == Polls.Recount(t, states[i].core.book.voters, id, true)
      && t.proposals[id].nays == Polls.Recount(t, states[i].core.book.voters, id, false)
      && 0 <= t.proposals[id].yeas && 0 <= t.proposals[id].nays
      && t.proposals[id].yeas + t.proposals[id].nays <= t.stake
  {
    hide Token.Sound, Sound, RowsSound, ReceiverSound, RamSound, GovSound, RewardsSound, AuctionSound, IsRun, Sum;
    RunSound(states, events, opening, i);
    var s := states[i];
    StakesNonNegative(s.core.ledger, s.core.book.voters);
    Polls.TurnoutWithinTotal(s.core.polls, s.core.book.voters, id, s.Now());
    assert Polls.TallySound(s.core.polls, s.core.book.voters, id, s.Now());
  }

  /** In every reachable state no chain of proxies, however long, comes back to where it started. */
  lemma {:induction false} RunAcyclic(states: seq<State>, events: seq<Event>, opening: nat, i: nat, path: seq<Name>)
    requires IsRun(states, events) && Inv(states[0], opening) && i < |states|
    requires ProxyPath(states[i].core.book.voters, path) && |path| >= 2
    ensures path[0] != path[|path| - 1]
  {
    hide Token.Sound, LedgerSound, Polls.Sound, RamSound, GovSound, RewardsSound, AuctionSound, IsRun, Acyclic;
    hide ProxyPath;
    RunSound(states, events, opening, i);
    NoProxyCycle(states[i].core.book.voters, path);
  }

  // ---------------------------------------------------------------- each proposal is executed once

  /** What a proposal is about, and its deadlines. */
  predicate SameMatter(p: Polls.Proposal, p': Polls.Proposal) {
    && p'.owner == p.owner && p'.account == p.account && p'.kind == p.kind && p'.consensus == p.consensus
    && p'.start == p.start && p'.voteEnd == p.voteEnd && p'.execEnd == p.execEnd && p'.blockHeight == p.blockHeight
  }

  /** Proposals are never lost, what they are about and their deadlines stay, and an executed one stays executed
      with the record of its execution. */
  ghost predicate Lasting(ps: map<nat, Polls.Proposal>, ps': map<nat, Polls.Proposal>) {
    forall id <- ps ::
      && id in ps' && SameMatter(ps[id], ps'[id])
      && (ps[id].executed ==>
            && ps'[id].executed && ps'[id].satisfied == ps[id].satisfied
            && ps'[id].execTime == ps[id].execTime && ps'[id].staked == ps[id].staked)
  }

  lemma {:induction false} RestakeLasting(t: Polls.Tables, voter: Name, w: int, now: nat)
    ensures Lasting(t.proposals, Polls.Restake(t, voter, w, now).proposals)
  {
  }

  lemma {:induction false} ReweighedLasting(c: S.Core, account: Name, before: int, now: nat)
    ensures Lasting(c.polls.proposals, S.Reweighed(c, account, before, now).polls.proposals)
  {
    hide Polls.Restake, Lasting;
    RestakeLasting(c.polls, account, VoteWeight.Weight(Polls.StakeOf(c.book.voters, account)) - before, now);
  }

  lemma {:induction false} StakingLasting(c: S.Core, e: S.Env, from: Name, receiver: Name, net: int, cpu: int,
                                          transfer: bool)
    requires Sound(c.book) && from != NO_NAME && receiver != NO_NAME
    ensures var r := S.Delegate(c, e, from, receiver, net, cpu, transfer);
      r.Commit? ==> Lasting(c.polls.proposals, r.value.polls.proposals)
    ensures var r := S.Undelegate(c, e, from, receiver, net, cpu);
      r.Commit? ==> Lasting(c.polls.proposals, r.value.polls.proposals)
  {
    hide S.ChangeBandwidth, S.Reweighed, Sound, Lasting;
    if S.Delegate(c, e, from, receiver, net, cpu, transfer).Commit? {
      var account := if transfer then receiver else from;
      ChangeKeepsPolls(c, e, from, receiver, net, cpu, transfer);
      ReweighedLasting(S.ChangeBandwidth(c, e, from, receiver, net, cpu, transfer).value, account,
                       VoteWeight.Weight(Polls.StakeOf(c.book.voters, account)), e.Now());
    }
    if S.Undelegate(c, e, from, receiver, net, cpu).Commit? {
      ChangeKeepsPolls(c, e, from, receiver, -net, -cpu, false);
      ReweighedLasting(S.ChangeBandwidth(c, e, from, receiver, -net, -cpu, false).value, from,
                       VoteWeight.Weight(Polls.StakeOf(c.book.voters, from)), e.Now());
    }
  }

  lemma {:induction false} VoteLasting(t: Polls.Tables, voters: Voters, voter: Name, id: nat, yea: bool, now: nat)
    requires voter in voters
    ensures var r := Polls.VoteProposal(t, voters, voter, id, yea, now);
      r.Commit? ==> Lasting(t.proposals, r.value.proposals)
  {
  }

  lemma {:induction false} NewLasting(token: Token.State, gs: G.GNodes, polls: Polls.Tables, e: S.Env, owner: Name,
                                      account: Name,
                                      height: nat, kind: int, consensus: int, id: nat)
    requires G.IsAvailable(polls.proposals, id)
    ensures var r := G.NewProposal(token, gs, polls, e, owner, account, height, kind, consensus, id);
      r.Commit? ==> Lasting(polls.proposals, r.value.1.proposals)
  {
    hide S.Pay;
    assert id !in polls.proposals;
  }

  lemma {:induction false} ExecLasting(x: G.Effect, polls: Polls.Tables, e: S.Env, auths: set<Name>, owner: Name,
                                       id: nat)
    ensures var r := G.ExecProposal(x, polls, e, auths, owner, id);
      r.Commit? ==>
        && Lasting(polls.proposals, r.value.1.proposals)
        && id in polls.proposals && !polls.proposals[id].executed && e.Now() < polls.proposals[id].execEnd
        && id in r.value.1.proposals && r.value.1.proposals[id].executed
  {
    hide G.Carry, G.ProducersSize, G.Passes;
  }

  lemma {:induction false} ApplyLasting(s: State, scale: real, auths: set<Name>, a: Action)
    requires Ready(s) && Legal(s, a)
    ensures var r := Apply(s, scale, auths, a);
      r.Commit? ==> Lasting(s.core.polls.proposals, r.value.core.polls.proposals)
  {
    hide Ready, Legal, Apply, Lasting;
    Unchanged(s.core.polls.proposals);
    if Staking(a) || a.VoteProposal? || a.NewProposal? || a.ExecProposal? {
      VotingLasting(s, scale, auths, a);
    } else {
      OthersKeepPolls(s, scale, auths, a);
    }
  }

  predicate Staking(a: Action) { a.Delegate? || a.Undelegate? }

  lemma {:induction false} VotingLasting(s: State, scale: real, auths: set<Name>, a: Action)
    requires Ready(s) && Legal(s, a) && (Staking(a) || a.VoteProposal? || a.NewProposal? || a.ExecProposal?)
    ensures var r := Apply(s, scale, auths, a);
      r.Commit? ==> Lasting(s.core.polls.proposals, r.value.core.polls.proposals)
  {
    hide Sound, Lasting, S.Delegate, S.Undelegate, Polls.VoteProposal, G.NewProposal, G.ExecProposal, G.IsAvailable;
    match a {
      case Delegate(from, receiver, net, cpu, transfer) =>
        StakingLasting(s.core, s.Env(scale), from, receiver, net, cpu, transfer);
      case Undelegate(from, receiver, net, cpu) =>
        StakingLasting(s.core, s.Env(scale), from, receiver, net, cpu, false);
      case VoteProposal(voter, id, yea) => VoteLasting(s.core.polls, s.core.book.voters, voter, id, yea, s.Now());
      case NewProposal(owner, account, height, kind, consensus, id) =>
        NewLasting(s.core.token, s.gnodes, s.core.polls, s.Env(scale), owner, account, height, kind, consensus, id);
      case ExecProposal(owner, id) => ExecLasting(s.Governed(), s.core.polls, s.Env(scale), auths, owner, id);
    }
  }

  lemma {:induction false} OthersKeepPolls(s: State, scale: real, auths: set<Name>, a: Action)
    requires Ready(s) && Legal(s, a) && !Staking(a) && !a.VoteProposal? && !a.NewProposal? && !a.ExecProposal?
    ensures var r := Apply(s, scale, auths, a); r.Commit? ==> r.value.core.polls == s.core.polls
  {
    hide Ready, S.Delegate, S.Undelegate, V.UpdateVotes, V.RegProxy, Polls.VoteProposal, R.BuyRam, R.BuyRamBytes;
    hide R.SellRam, R.SetRam;
    hide G.StakeToGnode, G.UnstakeGnode, G.UpdateGnode, G.NewProposal, G.ExecProposal, G.RmvProducer, B.OnBlock;
    hide G.ClaimRewards;
    hide A.PlaceBid, A.NewAccount, G.IsAvailable, A.IsFirst, Token.Apply, S.Pay;
    match a {
      case BuyRam(payer, receiver, quant) => Steady(s); TradesKeepPolls(s, scale, payer, receiver, quant);
      case BuyRamBytes(payer, receiver, bytes) => Steady(s); BytesKeepPolls(s, scale, payer, receiver, bytes);
      case SellRam(owner, sold) => Steady(s); TradesKeepPolls(s, scale, owner, owner, sold);
      case _ =>
    }
  }

  lemma {:induction false} Unchanged(ps: map<nat, Polls.Proposal>)
    ensures Lasting(ps, ps)
  {
  }

  lemma {:induction false} Steady(s: State)
    requires Ready(s)
    ensures Sound(s.core.book) && R.Live(s.ram.market)
  {
  }

  lemma {:induction false} TradesKeepPolls(s: State, scale: real, payer: Name, receiver: Name, amount: int)
    requires R.Live(s.ram.market)
    ensures var r := R.BuyRam(s.core, s.ram, s.Env(scale), payer, receiver, amount);
      r.Commit? ==> r.value.0.polls == s.core.polls
    ensures var r := R.SellRam(s.core, s.ram, s.Env(scale), receiver, amount);
      r.Commit? ==> r.value.0.polls == s.core.polls
  {
    hide S.Pay, X.Swap;
  }

  lemma {:induction false} BytesKeepPolls(s: State, scale: real, payer: Name, receiver: Name, bytes: nat)
    requires R.Live(s.ram.market) && s.ram.market.base + bytes > 0
    ensures var r := R.BuyRamBytes(s.core, s.ram, s.Env(scale), payer, receiver, bytes);
      r.Commit? ==> r.value.0.polls == s.core.polls
  {
    hide R.BuyRam, X.Swap;
    TradesKeepPolls(s, scale, payer, receiver, X.Swap(s.ram.market, X.Ram, bytes).1);
  }

  /** The event executes proposal `id`. */
  ghost predicate Executes(s: State, ev: Event, id: nat) {
    ev.action.ExecProposal? && ev.action.id == id && Commits(s, ev)
  }

  /** The event's action commits. */
  ghost predicate Commits(s: State, ev: Event) {
    && Ready(At(s, ev.micros)) && Legal(At(s, ev.micros), ev.action)
    && Apply(At(s, ev.micros), ev.scale, ev.auths, ev.action).Commit?
  }

  lemma {:induction false} RunLasting(states: seq<State>, events: seq<Event>, opening: nat, i: nat, j: nat)
    requires IsRun(states, events) && Inv(states[0], opening) && i <= j < |states|
    ensures Lasting(states[i].core.polls.proposals, states[j].core.polls.proposals)
    decreases j - i
  {
    hide Inv, Next;
    if i < j {
      RunLasting(states, events, opening, i, j - 1);
      RunSound(states, events, opening, j - 1);
      assert Next(states[j - 1], events[j - 1], states[j]);
      NextLasting(states[j - 1], events[j - 1], states[j], opening);
    }
  }

  lemma {:induction false} NextLasting(s: State, ev: Event, s': State, opening: nat)
    requires Inv(s, opening) && Next(s, ev, s')
    ensures Lasting(s.core.polls.proposals, s'.core.polls.proposals)
  {
    hide Inv, Apply, Legal, Ready, Lasting;
    TimePasses(s, ev.micros, opening);
    Unchanged(s.core.polls.proposals);
    ApplyLasting(At(s, ev.micros), ev.scale, ev.auths, ev.action);
  }

  /** In every run each proposal takes effect at most once. */
  lemma {:induction false} ExecutedOnce(states: seq<State>, events: seq<Event>, opening: nat, i: nat, j: nat, id: nat)
    requires IsRun(states, events) && Inv(states[0], opening) && i < j < |events|
    ensures Executes(states[i], events[i], id) ==> !Executes(states[j], events[j], id)
  {
    hide Inv, Legal, Ready, G.ExecProposal, Lasting;
    if Executes(states[i], events[i], id) {
      RunSound(states, events, opening, i);
      assert Next(states[i], events[i], states[i + 1]);
      ExecEvent(states[i], events[i], id);
      RunLasting(states, events, opening, i + 1, j);
      ExecEvent(states[j], events[j], id);
      StillExecuted(states[i + 1].core.polls.proposals, states[j].core.polls.proposals, id);
    }
  }

  // ---------------------------------------------------------------- the life of a proposal

  /** The event makes proposal `id`. */
  ghost predicate Proposes(s: State, ev: Event, id: nat) {
    ev.action.NewProposal? && ev.action.id == id && Commits(s, ev)
  }

  /** The event is a committed vote on proposal `id`. */
  ghost predicate VotesOn(s: State, ev: Event, id: nat) {
    ev.action.VoteProposal? && ev.action.id == id && Commits(s, ev)
  }

  function Second(ev: Event): nat { ev.micros / MICROS_PER_SECOND }

  lemma {:induction false} ProposeEvent(s: State, ev: Event, id: nat)
    ensures Proposes(s, ev, id) ==>
      var ps := After(s, ev).core.polls.proposals;
      id in ps && ps[id].voteEnd == Second(ev) + 7200 && ps[id].execEnd == Second(ev) + 7200 + 259200 && !ps[id].executed
  {
    hide Ready, S.Pay, G.IsAvailable;
  }

  lemma {:induction false} VoteEvent(s: State, ev: Event, id: nat)
    ensures VotesOn(s, ev, id) ==> id in s.core.polls.proposals && Second(ev) < s.core.polls.proposals[id].voteEnd
  {
    hide Ready;
  }

  lemma {:induction false} ExecTimes(s: State, ev: Event, id: nat)
    ensures Executes(s, ev, id) ==>
      && id in s.core.polls.proposals && Second(ev) < s.core.polls.proposals[id].execEnd
      && (G.ProducersSize(s.core.book.producers) > 7 ==> s.core.polls.proposals[id].voteEnd < Second(ev))
  {
    hide Ready, G.Carry, G.Passes, G.ProducersSize;
  }

  lemma {:induction false} SameTimes(ps: map<nat, Polls.Proposal>, ps': map<nat, Polls.Proposal>, id: nat)
    requires Lasting(ps, ps') && id in ps
    ensures id in ps' && ps'[id].voteEnd == ps[id].voteEnd && ps'[id].execEnd == ps[id].execEnd
  {
  }

  /** In every run, whatever happens in between: a proposal made at some second is voted on only in the two
      hours from then, and executed only before three more days have passed and, once there are more than
      seven producers, only after the two hours. */
  lemma {:induction false} ProposalWindow(states: seq<State>, events: seq<Event>, opening: nat, i: nat, j: nat, id: nat)
    requires IsRun(states, events) && Inv(states[0], opening) && i < j < |events| && Proposes(states[i], events[i], id)
    ensures VotesOn(states[j], events[j], id) ==> Second(events[j]) < Second(events[i]) + 7200
    ensures Executes(states[j], events[j], id) ==>
      && Second(events[j]) < Second(events[i]) + 7200 + 259200
      && (G.ProducersSize(states[j].core.book.producers) > 7 ==> Second(events[i]) + 7200 < Second(events[j]))
  {
    hide Inv, Legal, Ready, Apply, Lasting, G.ProducersSize;
    assert Next(states[i], events[i], states[i + 1]);
    ProposeEvent(states[i], events[i], id);
    RunLasting(states, events, opening, i + 1, j);
    SameTimes(states[i + 1].core.polls.proposals, states[j].core.polls.proposals, id);
    VoteEvent(states[j], events[j], id);
    ExecTimes(states[j], events[j], id);
  }

  lemma {:induction false} StillExecuted(ps: map<nat, Polls.Proposal>, ps': map<nat, Polls.Proposal>, id: nat)
    requires Lasting(ps, ps') && id in ps && ps[id].executed
    ensures id in ps' && ps'[id].executed
  {
  }

  lemma {:induction false} ExecEvent(s: State, ev: Event, id: nat)
    ensures Executes(s, ev, id) ==>
      && id in s.core.polls.proposals && !s.core.polls.proposals[id].executed
      && ev.micros / MICROS_PER_SECOND < s.core.polls.proposals[id].execEnd
      && id in After(s, ev).core.polls.proposals && After(s, ev).core.polls.proposals[id].executed
  {
    hide Ready, Legal, G.ExecProposal, Lasting;
    if Executes(s, ev, id) {
      var s1 := At(s, ev.micros);
      ExecLasting(s1.Governed(), s1.core.polls, s1.Env(ev.scale), ev.auths, ev.action.owner, id);
    }
  }

  // ---------------------------------------------------------------- block rewards

  /** What the event pays for blocks, and the blocks it counts. */
  ghost function Paid(s: State, ev: Event): int {
    if ev.action.ClaimRewards? && Commits(s, ev) && ev.action.owner in s.core.book.producers
    then G.REWARD_PER_BLOCK * s.core.book.producers[ev.action.owner].unpaid else 0
  }

  ghost function Produced(s: State, ev: Event): int {
    if ev.action.OnBlock? && B.Activated(s.core.polls.stake, s.producerNum) && ev.action.producer in s.core.book.producers then 1 else 0
  }

  ghost function TotalPaid(states: seq<State>, events: seq<Event>, i: nat): int
    requires i <= |events| && i <= |states|
  {
    if i == 0 then 0 else TotalPaid(states, events, i - 1) + Paid(states[i - 1], events[i - 1])
  }

  ghost function TotalProduced(states: seq<State>, events: seq<Event>, i: nat): int
    requires i <= |events| && i <= |states|
  {
    if i == 0 then 0 else TotalProduced(states, events, i - 1) + Produced(states[i - 1], events[i - 1])
  }

  lemma {:induction false} ClaimPays(s: State, scale: real, auths: set<Name>, a: Action, opening: nat)
    requires Inv(s, opening) && Ready(s) && Legal(s, a) && a.ClaimRewards?
    ensures var r := Apply(s, scale, auths, a);
      r.Commit? ==>
        && a.owner in s.core.book.producers
        && r.value.rewards == G.Rewards(s.rewards.unpaid - s.core.book.producers[a.owner].unpaid,
                                        s.rewards.bucket - G.REWARD_PER_BLOCK * s.core.book.producers[a.owner].unpaid)
  {
    hide CoreSound, RamSound, GovSound, RewardsSound, AuctionSound, Ready, S.Pay;
    if a.owner in s.core.book.producers { PayIsExact(s.core.book.producers, s.rewards, a.owner); }
  }

  lemma {:induction false} BlockCounts(s: State, scale: real, auths: set<Name>, a: Action)
    requires Ready(s) && Legal(s, a) && a.OnBlock?
    ensures var r := Apply(s, scale, auths, a);
      r.Commit?
      && r.value.rewards == s.rewards.(unpaid := s.rewards.unpaid
           + if B.Activated(s.core.polls.stake, s.producerNum) && a.producer in s.core.book.producers then 1 else 0)
  {
    hide Ready, A.IsFirst, A.CloseFirst;
  }

  lemma {:induction false} OthersKeepRewards(s: State, scale: real, auths: set<Name>, a: Action)
    requires Ready(s) && Legal(s, a) && !a.ClaimRewards? && !a.OnBlock?
    ensures var r := Apply(s, scale, auths, a); r.Commit? ==> r.value.rewards == s.rewards
  {
    hide Sound, S.Delegate, S.Undelegate, V.UpdateVotes, V.RegProxy, Polls.VoteProposal, R.BuyRam, R.BuyRamBytes;
    hide R.SellRam, R.SetRam;
    hide G.StakeToGnode, G.UnstakeGnode, G.UpdateGnode, G.NewProposal, G.ExecProposal, G.RmvProducer, B.OnBlock;
    hide G.ClaimRewards;
    hide A.PlaceBid, A.NewAccount, G.IsAvailable, A.IsFirst, Token.Apply, S.Refund;
  }

  lemma {:induction false} NextRewards(s: State, ev: Event, s': State, opening: nat)
    requires Inv(s, opening) && Next(s, ev, s')
    ensures s'.rewards.bucket == s.rewards.bucket - Paid(s, ev)
    ensures s'.rewards.unpaid + Paid(s, ev) == s.rewards.unpaid + Produced(s, ev)
  {
    hide Inv, Legal, Ready, Apply;
    TimePasses(s, ev.micros, opening);
    if ev.action.ClaimRewards? {
      ClaimPays(At(s, ev.micros), ev.scale, ev.auths, ev.action, opening);
    } else if ev.action.OnBlock? {
      BlockCounts(At(s, ev.micros), ev.scale, ev.auths, ev.action);
    } else {
      OthersKeepRewards(At(s, ev.micros), ev.scale, ev.auths, ev.action);
    }
  }

  /** Over every run the bucket is minus everything paid so far, and every counted block is either paid
      or still unpaid. */
  lemma {:induction false} RunRewards(states: seq<State>, events: seq<Event>, opening: nat, i: nat)
    requires IsRun(states, events) && Inv(states[0], opening) && i < |states|
    ensures states[i].rewards.bucket == states[0].rewards.bucket - TotalPaid(states, events, i)
    ensures states[i].rewards.unpaid + TotalPaid(states, events, i)
         == states[0].rewards.unpaid + TotalProduced(states, events, i)
    decreases i
  {
    hide Inv, Next, Paid, Produced;
    if i > 0 {
      RunRewards(states, events, opening, i - 1);
      RunSound(states, events, opening, i - 1);
      assert Next(states[i - 1], events[i - 1], states[i]);
      NextRewards(states[i - 1], events[i - 1], states[i], opening);
    }
  }
}
