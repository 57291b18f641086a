/** What the events of a run say about the rows that actions overwrite: governance nodes, claims, ballots and the time
    of the first vote. */
module ChainHistory {
  import opened Base
  import opened Votes
  import V = Votes
  import VoteWeight
  import Polls
  import Token
  import S = Staking
  import opened StakingLaws
  import opened BallotEffects
  import R = RamMarket
  import RamLaws
  import G = Governance
  import opened GovernanceLaws
  import opened GovernanceEffects
  import A = Auctions
  import opened AuctionLaws
  import B = Blocks
  import opened Chain
  import opened ChainLaws
  import opened ChainRuns
  import opened ChainVotes

  // ---------------------------------------------------------------- governance nodes

  /** What a governance node has been registered with. */
  datatype Node = NoNode | Node(payer: Name, staked: int, since: nat, key: nat, url: string, location: nat)

  function NodeOf(gs: G.GNodes, o: Name): Node {
    if o in gs then Node(gs[o].payer, gs[o].staked, gs[o].time, gs[o].key, gs[o].url, gs[o].location) else NoNode
  }

  /** What an action that commits at second `now` makes of the registration of `o`. */
  function Registers(before: Node, a: Action, now: nat, o: Name): Node {
    match a
    case StakeToGnode(payer, owner, key, url, location) =>
      if o == owner then Node(payer, 10000, now, key, url, location) else before
    case UnstakeGnode(owner) => if o == owner then NoNode else before
    case UpdateGnode(owner, key, url, location) =>
      if o == owner && before.Node? then before.(key := key, url := url, location := location) else before
    case _ => before
  }

  lemma {:induction false} ExecKeepsNodes(x: G.Effect, polls: Polls.Tables, e: S.Env, auths: set<Name>, owner: Name,
                                          id: nat, o: Name)
    ensures var r := G.ExecProposal(x, polls, e, auths, owner, id);
      r.Commit? ==> NodeOf(r.value.0.gnodes, o) == NodeOf(x.gnodes, o)
  {
    hide G.ExecProposal, Wins;
    if G.ExecProposal(x, polls, e, auths, owner, id).Commit? { ExecDecides(x, polls, e, auths, owner, id); }
  }

  lemma {:induction false} OthersKeepNodes(s: State, scale: real, auths: set<Name>, a: Action)
    requires Ready(s) && Legal(s, a) && !a.StakeToGnode? && !a.UnstakeGnode? && !a.UpdateGnode? && !a.ExecProposal?
    ensures var r := Apply(s, scale, auths, a); r.Commit? ==> r.value.gnodes == s.gnodes
  {
    hide Sound, S.Delegate, S.Undelegate, UpdateVotes, V.RegProxy, Polls.VoteProposal, R.BuyRam, R.BuyRamBytes;
    hide R.SellRam, R.SetRam;
    hide G.StakeToGnode, G.UnstakeGnode, G.UpdateGnode, G.NewProposal, G.ExecProposal, G.RmvProducer, B.OnBlock;
    hide G.ClaimRewards;
    hide A.PlaceBid, A.NewAccount, G.IsAvailable, A.IsFirst, Token.Apply, S.Refund;
  }

  lemma {:induction false} StakeToGnodeRow(t: Token.State, gs: G.GNodes, e: S.Env, payer: Name, owner: Name, key: nat,
                                           url: string, location: nat)
    ensures var r := G.StakeToGnode(t, gs, e, payer, owner, key, url, location);
      r.Commit? ==> OneNode(gs, r.value.1, owner) && NodeOf(r.value.1, owner) == Node(payer, 10000, e.Now(), key, url, location)
  {
    hide S.Pay;
  }

  lemma {:induction false} ApplyRegisters(s: State, scale: real, auths: set<Name>, a: Action, o: Name)
    requires Ready(s) && Legal(s, a)
    ensures var r := Apply(s, scale, auths, a);
      r.Commit? ==> NodeOf(r.value.gnodes, o) == Registers(NodeOf(s.gnodes, o), a, s.Now(), o)
  {
    hide Ready, Legal, Apply;
    if a.StakeToGnode? || a.UnstakeGnode? || a.UpdateGnode? || a.ExecProposal? {
      NodeActions(s, scale, auths, a, o);
    } else {
      OthersKeepNodes(s, scale, auths, a);
    }
  }

  lemma {:induction false} NodeActions(s: State, scale: real, auths: set<Name>, a: Action, o: Name)
    requires Ready(s) && Legal(s, a) && (a.StakeToGnode? || a.UnstakeGnode? || a.UpdateGnode? || a.ExecProposal?)
    ensures var r := Apply(s, scale, auths, a);
      r.Commit? ==> NodeOf(r.value.gnodes, o) == Registers(NodeOf(s.gnodes, o), a, s.Now(), o)
  {
    hide Ready, G.StakeToGnode, G.UnstakeGnode, G.UpdateGnode, G.ExecProposal;
    match a {
      case StakeToGnode(payer, owner, key, url, location) =>
        StakeToGnodeRow(s.core.token, s.gnodes, s.Env(scale), payer, owner, key, url, location);
      case UnstakeGnode(owner) => UnstakeGnodeRemoves(s.core.token, s.gnodes, s.core.polls.proposals, s.Env(scale), owner);
      case UpdateGnode(owner, key, url, location) => UpdateGnodeIff(s.gnodes, owner, key, url, location);
      case ExecProposal(owner, id) => ExecKeepsNodes(s.Governed(), s.core.polls, s.Env(scale), auths, owner, id, o);
    }
  }

  /** The registration of `o` by the events. */
  ghost function Registration(states: seq<State>, events: seq<Event>, o: Name, i: nat): Node
    requires i <= |events| && i < |states|
  {
    if i == 0 then NodeOf(states[0].gnodes, o)
    else if Commits(states[i - 1], events[i - 1])
    then Registers(Registration(states, events, o, i - 1), events[i - 1].action, Second(events[i - 1]), o)
    else Registration(states, events, o, i - 1)
  }

  lemma {:induction false} NextNode(s: State, ev: Event, s': State, opening: nat, o: Name)
    requires Inv(s, opening) && Next(s, ev, s')
    ensures NodeOf(s'.gnodes, o) ==
      if Commits(s, ev) then Registers(NodeOf(s.gnodes, o), ev.action, Second(ev), o) else NodeOf(s.gnodes, o)
  {
    hide Inv, Legal, Ready, Apply, NodeOf, Registers;
    TimePasses(s, ev.micros, opening);
    if Commits(s, ev) { ApplyRegisters(At(s, ev.micros), ev.scale, ev.auths, ev.action, o); }
  }

  /** In every state of every run an account is a governance node exactly if the events say so, with the payer, stake
      and time of its last registration and the key, url and location it gave last: nothing else, no election and no
      removal, touches them. */
  lemma {:induction false} RunNodes(states: seq<State>, events: seq<Event>, opening: nat, o: Name, i: nat)
    requires IsRun(states, events) && Inv(states[0], opening) && i < |states|
    ensures NodeOf(states[i].gnodes, o) == Registration(states, events, o, i)
    decreases i
  {
    hide Inv, Next, NodeOf, Registers, Commits;
    if i > 0 {
      RunNodes(states, events, opening, o, i - 1);
      RunSound(states, events, opening, i - 1);
      assert Next(states[i - 1], events[i - 1], states[i]);
      NextNode(states[i - 1], events[i - 1], states[i], opening, o);
    }
  }

  // ---------------------------------------------------------------- ballots

  /** What an action that commits makes of what `v` has asked for. */
  function Asks(before: Wish, a: Action, v: Name): Wish {
    match a
    case VoteProducer(voter, proxy, producers) => if v == voter then before.(proxy := proxy, producers := producers) else before
    case RegProxy(voter, isProxy) => if v == voter then before.(isProxy := isProxy) else before
    case _ => before
  }

  lemma {:induction false} ApplyAsks(s: State, scale: real, auths: set<Name>, a: Action, v: Name)
    requires Ready(s) && Legal(s, a)
    ensures var r := Apply(s, scale, auths, a);
      r.Commit? ==> WishOf(r.value.core.book.voters, v) == Asks(WishOf(s.core.book.voters, v), a, v)
  {
    hide Legal, Apply, S.StakeVotes, UpdateVotes, V.RegProxy, Sound, SameVotes, WishOf;
    var r := Apply(s, scale, auths, a);
    if r.Commit? {
      if a.Delegate? || a.Undelegate? {
        StakingBook(s, scale, auths, a);
        StakeKeepsWishes(s.core.book, s.Env(scale), Charged(a).0, Charged(a).1);
        assert WishOf(r.value.core.book.voters, v) == WishOf(s.core.book.voters, v);
      } else if a.VoteProducer? {
        VoteBookIs(s, scale, auths, a);
        VoteStored(s.core.book, a.voter, a.proxy, a.producers, true, scale);
        WishHas(s.core.book.voters, a.voter);
        assert v != a.voter ==> WishOf(r.value.core.book.voters, v) == WishOf(s.core.book.voters, v);
      } else if a.RegProxy? {
        ProxyBookIs(s, scale, auths, a);
        FlagStored(s.core.book, a.voter, a.isProxy, scale);
        assert v != a.voter ==> WishOf(r.value.core.book.voters, v) == WishOf(s.core.book.voters, v);
      } else {
        ApplyVotes(s, scale, auths, a);
      }
    }
  }

  lemma {:induction false} WishHas(voters: Voters, v: Name)
    ensures v in voters ==> WishOf(voters, v).isProxy == voters[v].isProxy
  {
  }

  /** What `v` has asked for by the events. */
  ghost function Asked(states: seq<State>, events: seq<Event>, v: Name, i: nat): Wish
    requires i <= |events| && i < |states|
  {
    if i == 0 then WishOf(states[0].core.book.voters, v)
    else if Commits(states[i - 1], events[i - 1])
    then Asks(Asked(states, events, v, i - 1), events[i - 1].action, v)
    else Asked(states, events, v, i - 1)
  }

  lemma {:induction false} NextWish(s: State, ev: Event, s': State, opening: nat, v: Name)
    requires Inv(s, opening) && Next(s, ev, s')
    ensures WishOf(s'.core.book.voters, v) ==
      if Commits(s, ev) then Asks(WishOf(s.core.book.voters, v), ev.action, v) else WishOf(s.core.book.voters, v)
  {
    hide Inv, Legal, Ready, Apply, WishOf, Asks;
    TimePasses(s, ev.micros, opening);
    if Commits(s, ev) { ApplyAsks(At(s, ev.micros), ev.scale, ev.auths, ev.action, v); }
  }

  /** In every state of every run the proxy and the producers stored for a voter are those of its last committed
      voteproducer, and the proxy flag that of its last committed regproxy: no change of stake, of anybody, alters
      them. */
  lemma {:induction false} RunWishes(states: seq<State>, events: seq<Event>, opening: nat, v: Name, i: nat)
    requires IsRun(states, events) && Inv(states[0], opening) && i < |states|
    ensures WishOf(states[i].core.book.voters, v) == Asked(states, events, v, i)
    decreases i
  {
    hide Inv, Next, WishOf, Asks, Commits;
    if i > 0 {
      RunWishes(states, events, opening, v, i - 1);
      RunSound(states, events, opening, i - 1);
      assert Next(states[i - 1], events[i - 1], states[i]);
      NextWish(states[i - 1], events[i - 1], states[i], opening, v);
    }
  }

  // ---------------------------------------------------------------- claims

  function ClaimTime(ps: Producers, p: Name): nat { if p in ps then ps[p].lastClaim else 0 }

  lemma {:induction false} RegisterClaims(ps: Producers, ps': Producers, p: Name)
    requires SameRegister(ps, ps')
    ensures ClaimTime(ps', p) == ClaimTime(ps, p)
  {
  }

  lemma {:induction false} ExecClaims(x: G.Effect, polls: Polls.Tables, e: S.Env, auths: set<Name>, owner: Name,
                                      id: nat, p: Name)
    ensures var r := G.ExecProposal(x, polls, e, auths, owner, id);
      r.Commit? ==> ClaimTime(r.value.0.producers, p) == ClaimTime(x.producers, p)
  {
    hide G.ExecProposal, Wins;
    if G.ExecProposal(x, polls, e, auths, owner, id).Commit? { ExecDecides(x, polls, e, auths, owner, id); }
  }

  lemma {:induction false} RowClaims(t: Token.State, ps: Producers, w: G.Rewards, stake: int, e: S.Env, q: Name, p: Name)
    ensures var r := G.RmvProducer(ps, q); r.Commit? ==> ClaimTime(r.value, p) == ClaimTime(ps, p)
    ensures var r := G.ClaimRewards(t, ps, w, stake, e, q);
      r.Commit? ==> ClaimTime(r.value.1, p) == if p == q then e.micros else ClaimTime(ps, p)
  {
    hide S.Pay;
  }

  lemma {:induction false} BookClaims(s: State, scale: real, auths: set<Name>, a: Action, p: Name)
    requires Ready(s) && Legal(s, a) && TouchesBook(a) && !CastsVotes(a)
    ensures var r := Apply(s, scale, auths, a);
      r.Commit? ==>
        ClaimTime(r.value.core.book.producers, p)
        == if a.ClaimRewards? && a.owner == p then s.micros else ClaimTime(s.core.book.producers, p)
  {
    hide Ready, G.ExecProposal, G.RmvProducer, B.OnBlock, G.ClaimRewards, A.IsFirst;
    var ps, e := s.core.book.producers, s.Env(scale);
    match a {
      case ExecProposal(owner, id) => ExecClaims(s.Governed(), s.core.polls, e, auths, owner, id, p);
      case RmvProducer(producer) => RowClaims(s.core.token, ps, s.rewards, s.core.polls.stake, e, producer, p);
      case ClaimRewards(owner) => RowClaims(s.core.token, ps, s.rewards, s.core.polls.stake, e, owner, p);
      case OnBlock(slot, producer, first) =>
        BlockEffect(s.Blocks(), s.core.polls.stake, s.producerNum, s.core.threshold, s.micros, slot, producer, first);
    }
  }

  lemma {:induction false} VotesClaims(s: State, scale: real, auths: set<Name>, a: Action, p: Name)
    requires Ready(s) && Legal(s, a) && CastsVotes(a)
    ensures var r := Apply(s, scale, auths, a);
      r.Commit? ==> ClaimTime(r.value.core.book.producers, p) == ClaimTime(s.core.book.producers, p)
  {
    hide Sound, UpdateVotes, V.RegProxy, S.StakeVotes, SameRegister, Apply, Legal, ClaimTime;
    var r := Apply(s, scale, auths, a);
    if r.Commit? {
      if a.Delegate? || a.Undelegate? {
        StakingBook(s, scale, auths, a);
        StakeMoves(s.core.book, Charged(a).0, Charged(a).1, s.Env(scale));
      } else if a.VoteProducer? {
        VoteBookIs(s, scale, auths, a);
        UpdateVotesStakes(s.core.book, a.voter, a.proxy, a.producers, true, scale);
      } else {
        ProxyBookIs(s, scale, auths, a);
        RegProxyStakes(s.core.book, a.voter, a.isProxy, scale);
      }
      RegisterClaims(s.core.book.producers, r.value.core.book.producers, p);
    }
  }

  lemma {:induction false} NextClaim(s: State, ev: Event, s': State, opening: nat, p: Name)
    requires Inv(s, opening) && Next(s, ev, s')
    ensures ClaimTime(s'.core.book.producers, p)
      == if Claims(s, ev, p) then ev.micros else ClaimTime(s.core.book.producers, p)
    ensures s'.micros == ev.micros && s.micros <= s'.micros
  {
    hide Inv, Legal, Ready, Apply, ClaimTime, CastsVotes, TouchesBook;
    TimePasses(s, ev.micros, opening);
    var s1 := At(s, ev.micros);
    if Commits(s, ev) {
      ApplyMicros(s1, ev.scale, ev.auths, ev.action);
      if CastsVotes(ev.action) {
        VotesClaims(s1, ev.scale, ev.auths, ev.action, p);
        NoClaim(ev.action);
      } else if TouchesBook(ev.action) {
        BookClaims(s1, ev.scale, ev.auths, ev.action, p);
      } else {
        OthersKeepBook(s1, ev.scale, ev.auths, ev.action);
        NoClaim(ev.action);
      }
    }
  }

  lemma {:induction false} NoClaim(a: Action)
    ensures a.ClaimRewards? ==> TouchesBook(a) && !CastsVotes(a)
  {
  }

  lemma {:induction false} ApplyMicros(s: State, scale: real, auths: set<Name>, a: Action)
    requires Ready(s) && Legal(s, a)
    ensures var r := Apply(s, scale, auths, a); r.Commit? ==> r.value.micros == s.micros
  {
    hide Sound, S.Delegate, S.Undelegate, UpdateVotes, V.RegProxy, Polls.VoteProposal, R.BuyRam, R.BuyRamBytes;
    hide R.SellRam, R.SetRam;
    hide G.StakeToGnode, G.UnstakeGnode, G.UpdateGnode, G.NewProposal, G.ExecProposal, G.RmvProducer, B.OnBlock;
    hide G.ClaimRewards;
    hide A.PlaceBid, A.NewAccount, G.IsAvailable, A.IsFirst, Token.Apply, S.Refund;
  }

  /** The event is a committed claim by `p`. */
  ghost predicate Claims(s: State, ev: Event, p: Name) { ev.action.ClaimRewards? && ev.action.owner == p && Commits(s, ev) }

  /** The time of the last committed claim by `p`. */
  ghost function LastClaim(states: seq<State>, events: seq<Event>, p: Name, i: nat): nat
    requires i <= |events| && i < |states|
  {
    if i == 0 then ClaimTime(states[0].core.book.producers, p)
    else if Claims(states[i - 1], events[i - 1], p) then events[i - 1].micros
    else LastClaim(states, events, p, i - 1)
  }

  /** In every state of every run the claim time stored for a producer is that of its last committed claim, which is not
      in the future. */
  lemma {:induction false} RunClaims(states: seq<State>, events: seq<Event>, opening: nat, p: Name, i: nat)
    requires IsRun(states, events) && Inv(states[0], opening) && i < |states|
    requires ClaimTime(states[0].core.book.producers, p) <= states[0].micros
    ensures ClaimTime(states[i].core.book.producers, p) == LastClaim(states, events, p, i) <= states[i].micros
    decreases i
  {
    hide Inv, Next, ClaimTime, Claims;
    if i > 0 {
      RunClaims(states, events, opening, p, i - 1);
      RunSound(states, events, opening, i - 1);
      assert Next(states[i - 1], events[i - 1], states[i]);
      NextClaim(states[i - 1], events[i - 1], states[i], opening, p);
    }
  }

  /** In every run a claim commits exactly when its sender is an active producer, the chain is activated, more than a day
      has passed since its last committed claim, and the blocks it has produced since can be paid for. */
  lemma {:induction false} ClaimsDaily(states: seq<State>, events: seq<Event>, opening: nat, p: Name, i: nat)
    requires IsRun(states, events) && Inv(states[0], opening) && i < |events|
    requires ClaimTime(states[0].core.book.producers, p) <= states[0].micros
    requires events[i].action == ClaimRewards(p) && events[i].micros < 0x1_0000_0000_0000_0000
    ensures var s := states[i];
      Commits(s, events[i]) <==>
        && p in s.core.book.producers && s.core.book.producers[p].active && s.core.polls.stake >= 1_000_000
        && events[i].micros > LastClaim(states, events, p, i) + MICROS_PER_DAY
        && (s.core.book.producers[p].unpaid > 0 ==>
              p != BLKPAY && s.core.book.producers[p].unpaid <= S.Funds(s.core.token, BLKPAY))
  {
    hide CoreSound, RamLaws.RamSound, GovSound, RewardsSound, AuctionSound, LastClaim, IsRun, S.Funds, G.ClaimRewards;
    RunLegal(states, events, i);
    RunSound(states, events, opening, i);
    RunClaims(states, events, opening, p, i);
    var s, ev := states[i], events[i];
    TimePasses(s, ev.micros, opening);
    var s1 := At(s, ev.micros);
    TokenIn(s1, opening);
    ClaimIff(s1.core.token, s1.core.book.producers, s1.rewards, s1.core.polls.stake, s1.Env(ev.scale), p);
  }

  lemma {:induction false} RunLegal(states: seq<State>, events: seq<Event>, i: nat)
    requires IsRun(states, events) && i < |events|
    ensures i < |states| && states[i].micros <= events[i].micros && Legal(At(states[i], events[i].micros), events[i].action)
  {
    hide Legal, Ready, Apply;
    assert Next(states[i], events[i], states[i + 1]);
  }

  lemma {:induction false} TokenIn(s: State, opening: nat)
    requires Inv(s, opening)
    ensures Token.Sound(s.core.token) && CoreLive(s.core.token)
  {
    hide Token.Sound, Sound, LedgerSound, Polls.Sound, RamLaws.RamSound, GovSound, RewardsSound, AuctionSound;
  }

  // ---------------------------------------------------------------- accounts

  /** The account an action creates when it commits. */
  function Creates(a: Action): set<Name> { if a.NewAccount? then {a.name} else {} }

  lemma {:induction false} ApplyCreates(s: State, scale: real, auths: set<Name>, a: Action)
    requires Ready(s) && Legal(s, a)
    ensures var r := Apply(s, scale, auths, a);
      r.Commit? ==> r.value.accounts == s.accounts + Creates(a) && Creates(a) !! s.accounts
  {
    hide Sound, S.Delegate, S.Undelegate, UpdateVotes, V.RegProxy, Polls.VoteProposal, R.BuyRam, R.BuyRamBytes;
    hide R.SellRam, R.SetRam;
    hide G.StakeToGnode, G.UnstakeGnode, G.UpdateGnode, G.NewProposal, G.ExecProposal, G.RmvProducer, B.OnBlock;
    hide G.ClaimRewards;
    hide A.PlaceBid, A.NewAccount, G.IsAvailable, A.IsFirst, Token.Apply, S.Refund;
    if a.NewAccount? { NewAccountIff(s.core.ledger, s.bids, s.accounts, a.creator, a.name); }
  }

  /** The accounts created by the first `i` events. */
  ghost function Created(states: seq<State>, events: seq<Event>, i: nat): set<Name>
    requires i <= |events| && i < |states|
  {
    if i == 0 then {} else
      Created(states, events, i - 1) + if Commits(states[i - 1], events[i - 1]) then Creates(events[i - 1].action) else {}
  }

  /** In every run the accounts are those of the start and those created since. */
  lemma {:induction false} RunAccounts(states: seq<State>, events: seq<Event>, opening: nat, i: nat)
    requires IsRun(states, events) && Inv(states[0], opening) && i < |states|
    ensures states[i].accounts == states[0].accounts + Created(states, events, i)
    decreases i
  {
    hide Inv, Legal, Ready, Apply, Creates;
    if i > 0 {
      RunAccounts(states, events, opening, i - 1);
      RunSound(states, events, opening, i - 1);
      var s, ev := states[i - 1], events[i - 1];
      assert Next(s, ev, states[i]);
      TimePasses(s, ev.micros, opening);
      ApplyCreates(At(s, ev.micros), ev.scale, ev.auths, ev.action);
    }
  }

  // ---------------------------------------------------------------- the first vote

  /** The action re-applies or casts a vote for producers while enough stake can vote. */
  ghost predicate Activates(s: State, a: Action) {
    s.core.polls.stake >= 1_000_000
    && (a.VoteProducer? || ((a.Delegate? || a.Undelegate?) && S.HasVote(s.core.book, Charged(a).0)))
  }

  lemma {:induction false} StakingThreshold(s: State, scale: real, auths: set<Name>, a: Action)
    requires Ready(s) && Legal(s, a) && (a.Delegate? || a.Undelegate?)
    ensures var r := Apply(s, scale, auths, a);
      r.Commit? ==>
        r.value.core.threshold == if s.core.threshold == 0 && Activates(s, a) then s.micros else s.core.threshold
  {
    hide Sound, S.Booked, S.Pay, S.StakeVotes, Polls.Restake, VoteWeight.Weight;
  }

  lemma {:induction false} ApplyThreshold(s: State, scale: real, auths: set<Name>, a: Action)
    requires Ready(s) && Legal(s, a)
    ensures var r := Apply(s, scale, auths, a);
      r.Commit? ==>
        r.value.core.threshold == if s.core.threshold == 0 && Activates(s, a) then s.micros else s.core.threshold
  {
    hide Sound, Legal, UpdateVotes, V.RegProxy;
    if a.Delegate? || a.Undelegate? {
      hide Apply;
      StakingThreshold(s, scale, auths, a);
    } else if !a.VoteProducer? && !a.RegProxy? {
      hide Apply;
      ApplyVotes(s, scale, auths, a);
    }
  }

  /** The time of the first event that casts or re-applies a vote while enough stake can vote. */
  ghost function FirstVote(states: seq<State>, events: seq<Event>, i: nat): nat
    requires i <= |events| && i < |states|
  {
    if i == 0 then states[0].core.threshold
    else if FirstVote(states, events, i - 1) == 0 && Commits(states[i - 1], events[i - 1])
            && Activates(states[i - 1], events[i - 1].action)
    then events[i - 1].micros
    else FirstVote(states, events, i - 1)
  }

  lemma {:induction false} NextThreshold(s: State, ev: Event, s': State, opening: nat)
    requires Inv(s, opening) && Next(s, ev, s')
    ensures s'.core.threshold ==
      if s.core.threshold == 0 && Commits(s, ev) && Activates(s, ev.action) then ev.micros else s.core.threshold
    ensures s'.micros == ev.micros && s.micros <= s'.micros
  {
    hide Inv, Legal, Ready, Apply;
    TimePasses(s, ev.micros, opening);
    if Commits(s, ev) {
      ApplyThreshold(At(s, ev.micros), ev.scale, ev.auths, ev.action);
      ApplyMicros(At(s, ev.micros), ev.scale, ev.auths, ev.action);
    }
  }

  /** In every state of every run the activation time stored is that of the first such event, never in the future, and
      once set it stays. */
  lemma {:induction false} RunThreshold(states: seq<State>, events: seq<Event>, opening: nat, i: nat)
    requires IsRun(states, events) && Inv(states[0], opening) && i < |states| && states[0].core.threshold <= states[0].micros
    ensures states[i].core.threshold == FirstVote(states, events, i) <= states[i].micros
    decreases i
  {
    hide Inv, Next, Commits, Activates;
    if i > 0 {
      RunThreshold(states, events, opening, i - 1);
      RunSound(states, events, opening, i - 1);
      assert Next(states[i - 1], events[i - 1], states[i]);
      NextThreshold(states[i - 1], events[i - 1], states[i], opening);
    }
  }

  // ---------------------------------------------------------------- the close of an auction

  /** Only a block turns an open bid into a closed one. */
  lemma {:induction false} OthersLeaveOpen(s: State, scale: real, auths: set<Name>, a: Action, name: Name)
    requires Ready(s) && Legal(s, a) && !a.OnBlock? && name in s.bids && s.bids[name].high > 0
    ensures var r := Apply(s, scale, auths, a); r.Commit? && name in r.value.bids ==> r.value.bids[name].high > 0
  {
    hide Ready, Legal, Apply;
    if a.BidName? || a.NewAccount? { NameActions(s, scale, auths, a, name); } else { OthersKeepBids(s, scale, auths, a); }
  }

  lemma {:induction false} NameActions(s: State, scale: real, auths: set<Name>, a: Action, name: Name)
    requires Ready(s) && Legal(s, a) && (a.BidName? || a.NewAccount?) && name in s.bids && s.bids[name].high > 0
    ensures var r := Apply(s, scale, auths, a); r.Commit? && name in r.value.bids ==> r.value.bids[name].high > 0
  {
    hide Ready, A.PlaceBid, A.NewAccount;
    match a {
      case BidName(bidder, other, amount) => BidRecorded(s.core.token, s.bids, s.Env(scale), bidder, other, amount);
      case NewAccount(creator, other) => NewAccountIff(s.core.ledger, s.bids, s.accounts, creator, other);
    }
  }

  lemma {:induction false} OthersKeepBids(s: State, scale: real, auths: set<Name>, a: Action)
    requires Ready(s) && Legal(s, a) && !a.OnBlock? && !a.BidName? && !a.NewAccount?
    ensures var r := Apply(s, scale, auths, a); r.Commit? ==> r.value.bids == s.bids
  {
    hide Sound, S.Delegate, S.Undelegate, UpdateVotes, V.RegProxy, Polls.VoteProposal, R.BuyRam, R.BuyRamBytes;
    hide R.SellRam, R.SetRam;
    hide G.StakeToGnode, G.UnstakeGnode, G.UpdateGnode, G.NewProposal, G.ExecProposal, G.RmvProducer, B.OnBlock;
    hide G.ClaimRewards;
    hide A.PlaceBid, A.NewAccount, G.IsAvailable, A.IsFirst, Token.Apply, S.Refund;
  }

  /** In every run an auction is closed only by a block, of an activated chain, more than two weeks after the first
      vote; its bid is then more than a day old, at least as high as every other, and no other auction is closed. */
  lemma {:induction false} ClosedByBlock(states: seq<State>, events: seq<Event>, opening: nat, name: Name, i: nat)
    requires IsRun(states, events) && Inv(states[0], opening) && i < |events| && states[0].core.threshold <= states[0].micros
    requires name in states[i].bids && states[i].bids[name].high > 0 && events[i].micros < 0x1_0000_0000_0000_0000
    requires name in states[i + 1].bids && states[i + 1].bids[name].high < 0
    ensures var s, ev := states[i], events[i];
      && ev.action.OnBlock? && s.core.polls.stake >= 1_000_000 && s.producerNum >= 7
      && s.bids[name].time + MICROS_PER_DAY < ev.micros
      && 0 < FirstVote(states, events, i) && FirstVote(states, events, i) + 14 * MICROS_PER_DAY < ev.micros
      && (forall n <- s.bids :: 0 < s.bids[n].high <= s.bids[name].high)
  {
    hide Inv, FirstVote, Next;
    RunSound(states, events, opening, i);
    RunThreshold(states, events, opening, i);
    assert Next(states[i], events[i], states[i + 1]);
    BlockCloses(states[i], events[i], states[i + 1], opening, name);
  }

  lemma {:induction false} BlockCloses(s: State, ev: Event, s': State, opening: nat, name: Name)
    requires Inv(s, opening) && Next(s, ev, s') && s.core.threshold <= s.micros && ev.micros < 0x1_0000_0000_0000_0000
    requires name in s.bids && s.bids[name].high > 0 && name in s'.bids && s'.bids[name].high < 0
    ensures ev.action.OnBlock? && s.core.polls.stake >= 1_000_000 && s.producerNum >= 7
    ensures s.bids[name].time + MICROS_PER_DAY < ev.micros
    ensures 0 < s.core.threshold && s.core.threshold + 14 * MICROS_PER_DAY < ev.micros
    ensures forall n <- s.bids :: 0 < s.bids[n].high <= s.bids[name].high
  {
    hide Inv, Legal, Ready, B.OnBlock, Apply, Closes, A.IsFirst;
    TimePasses(s, ev.micros, opening);
    if ev.action.OnBlock? {
      var t, a, stake := At(s, ev.micros).Blocks(), ev.action, s.core.polls.stake;
      BlockBids(At(s, ev.micros), ev.scale, ev.auths, a);
      BlockEffect(t, stake, s.producerNum, s.core.threshold, ev.micros, a.slot, a.producer, a.first);
      OnlyFirst(t, s'.bids, stake, s.producerNum, s.core.threshold, ev.micros, a.slot, a.first, name);
      HighestFirst(s, opening, a.first);
    } else {
      OthersLeaveOpen(At(s, ev.micros), ev.scale, ev.auths, ev.action, name);
    }
  }

  /** The tests on times that wrap around, read on times that do not. */
  lemma {:induction false} OnlyFirst(t: B.Tables, bids: A.Bids, stake: int, num: int, threshold: nat, micros: nat,
                                     slot: int, first: Name, name: Name)
    requires name in t.bids && t.bids[name].high > 0 && name in bids && bids[name].high < 0
    requires threshold <= micros < 0x1_0000_0000_0000_0000
    requires Closes(t, stake, num, threshold, micros, slot, first) ==>
      bids == t.bids[first := t.bids[first].(high := -t.bids[first].high)]
    requires !Closes(t, stake, num, threshold, micros, slot, first) ==> bids == t.bids
    ensures name == first && stake >= 1_000_000 && num >= 7 && t.bids[name].time + MICROS_PER_DAY < micros
    ensures 0 < threshold && threshold + 14 * MICROS_PER_DAY < micros
  {
  }

  lemma {:induction false} BlockBids(s: State, scale: real, auths: set<Name>, a: Action)
    requires Ready(s) && Legal(s, a) && a.OnBlock?
    ensures s.bids != map[] ==> A.IsFirst(s.bids, a.first)
    ensures var r := Apply(s, scale, auths, a);
      r.Commit? && r.value.bids == B.OnBlock(s.Blocks(), s.core.polls.stake, s.producerNum, s.core.threshold, s.micros,
                                             a.slot, a.producer, a.first).bids
  {
    hide A.IsFirst, B.OnBlock, Ready;
  }

  lemma {:induction false} HighestFirst(s: State, opening: nat, first: Name)
    requires Inv(s, opening) && A.IsFirst(s.bids, first)
    ensures first in s.bids && (s.bids[first].high > 0 ==> forall n <- s.bids :: 0 < s.bids[n].high <= s.bids[first].high)
  {
    hide CoreSound, RamLaws.RamSound, GovSound, RewardsSound, A.Key;
    if s.bids[first].high > 0 {
      forall n | n in s.bids ensures 0 < s.bids[n].high <= s.bids[first].high {
        KeyOrder(s.bids[n], s.bids[first]);
        KeyOrder(s.bids[first], s.bids[n]);
      }
    }
  }
}
