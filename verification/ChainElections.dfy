/** How accounts become block producers, and how they stop being one. */
module ChainElections {
  import opened Base
  import opened Votes
  import V = Votes
  import Polls
  import Token
  import S = Staking
  import opened StakingLaws
  import R = RamMarket
  import G = Governance
  import GovernanceLaws
  import RamLaws
  import AuctionLaws
  import A = Auctions
  import B = Blocks
  import Schedule
  import opened Chain
  import opened ChainLaws
  import opened ChainRuns
  import opened ChainVotes

  predicate Active(ps: Producers, p: Name) { p in ps && ps[p].active }

  /** The proposal is won and would give `p` the status `active`. */
  predicate Decides(prop: Polls.Proposal, stake: int, p: Name, active: bool) {
    prop.account == p && prop.kind == (if active then 1 else 2) && GovernanceLaws.Wins(prop, stake)
  }

  /** A change of `p`'s status in an execution is the passed proposal's, with `p`'s own authority. */
  lemma {:induction false} ExecStatus(x: G.Effect, polls: Polls.Tables, e: S.Env, auths: set<Name>, owner: Name,
                                      id: nat, p: Name)
    ensures var r := G.ExecProposal(x, polls, e, auths, owner, id);
      r.Commit? && Active(x.producers, p) != Active(r.value.0.producers, p) ==>
        && id in polls.proposals && Decides(polls.proposals[id], polls.stake, p, Active(r.value.0.producers, p))
        && p in auths && p in x.gnodes
  {
    hide G.ExecProposal, GovernanceLaws.Wins;
    if G.ExecProposal(x, polls, e, auths, owner, id).Commit? { GovernanceLaws.ExecDecides(x, polls, e, auths, owner, id); }
  }

  lemma {:induction false} RmvStatus(ps: Producers, q: Name, p: Name)
    ensures var r := G.RmvProducer(ps, q);
      r.Commit? && Active(ps, p) != Active(r.value, p) ==> q == p && !Active(r.value, p)
  {
  }

  lemma {:induction false} BlockStatus(t: B.Tables, stake: int, num: int, threshold: nat, micros: nat, slot: int,
                                       producer: Name,
                                       first: Name, p: Name)
    requires t.bids != map[] ==> A.IsFirst(t.bids, first)
    ensures Active(B.OnBlock(t, stake, num, threshold, micros, slot, producer, first).producers, p) == Active(t.producers, p)
  {
    hide A.CloseFirst, A.IsFirst;
  }

  lemma {:induction false} ClaimStatus(token: Token.State, ps: Producers, w: G.Rewards, stake: int, e: S.Env,
                                       owner: Name, p: Name)
    ensures var r := G.ClaimRewards(token, ps, w, stake, e, owner); r.Commit? ==> Active(r.value.1, p) == Active(ps, p)
  {
    hide S.Pay;
  }

  /** Votes and stakes leave the register of producers alone. */
  lemma {:induction false} VotesStatus(s: State, scale: real, auths: set<Name>, a: Action, p: Name)
    requires Ready(s) && Legal(s, a)
    requires CastsVotes(a)
    ensures var r := Apply(s, scale, auths, a);
      r.Commit? ==> Active(r.value.core.book.producers, p) == Active(s.core.book.producers, p)
  {
    hide Sound, UpdateVotes, V.RegProxy, S.StakeVotes, SameRegister, S.Delegate, S.Undelegate, Active;
    var r := Apply(s, scale, auths, a);
    if r.Commit? {
      if a.Delegate? || a.Undelegate? {
        StakingBook(s, scale, auths, a);
        StakeMoves(s.core.book, Charged(a).0, Charged(a).1, s.Env(scale));
      } else if a.VoteProducer? {
        UpdateVotesStakes(s.core.book, a.voter, a.proxy, a.producers, true, scale);
      } else {
        RegProxyStakes(s.core.book, a.voter, a.isProxy, scale);
      }
      RegisterStatus(s.core.book.producers, r.value.core.book.producers, p);
    }
  }

  lemma {:induction false} RegisterStatus(ps: Producers, ps': Producers, p: Name)
    requires SameRegister(ps, ps')
    ensures Active(ps', p) == Active(ps, p)
  {
  }

  lemma {:induction false} RegisterActions(s: State, scale: real, auths: set<Name>, a: Action, p: Name)
    requires Ready(s) && Legal(s, a) && TouchesBook(a) && !CastsVotes(a)
    ensures var r := Apply(s, scale, auths, a);
      r.Commit? && Active(s.core.book.producers, p) != Active(r.value.core.book.producers, p) ==>
        || (a.RmvProducer? && a.producer == p && !Active(r.value.core.book.producers, p))
        || (&& a.ExecProposal? && a.id in s.core.polls.proposals && p in auths && p in s.gnodes
            && Decides(s.core.polls.proposals[a.id], s.core.polls.stake, p, Active(r.value.core.book.producers, p)))
  {
    hide Ready, Decides, Active, G.ExecProposal, G.RmvProducer, B.OnBlock, G.ClaimRewards, A.IsFirst;
    match a {
      case ExecProposal(owner, id) => ExecStatus(s.Governed(), s.core.polls, s.Env(scale), auths, owner, id, p);
      case RmvProducer(producer) => RmvStatus(s.core.book.producers, producer, p);
      case OnBlock(slot, producer, first) =>
        BlockStatus(s.Blocks(), s.core.polls.stake, s.producerNum, s.core.threshold, s.micros, slot, producer, first, p);
      case ClaimRewards(owner) => ClaimStatus(s.core.token, s.core.book.producers, s.rewards, s.core.polls.stake, s.Env(scale), owner, p);
    }
  }

  lemma {:induction false} ApplyStatus(s: State, scale: real, auths: set<Name>, a: Action, p: Name)
    requires Ready(s) && Legal(s, a)
    ensures var r := Apply(s, scale, auths, a);
      r.Commit? && Active(s.core.book.producers, p) != Active(r.value.core.book.producers, p) ==>
        || (a.RmvProducer? && a.producer == p && !Active(r.value.core.book.producers, p))
        || (&& a.ExecProposal? && a.id in s.core.polls.proposals && p in auths && p in s.gnodes
            && Decides(s.core.polls.proposals[a.id], s.core.polls.stake, p, Active(r.value.core.book.producers, p)))
  {
    hide Ready, Legal, Apply, TouchesBook, CastsVotes, Decides, Active;
    if CastsVotes(a) {
      VotesStatus(s, scale, auths, a, p);
    } else if TouchesBook(a) {
      RegisterActions(s, scale, auths, a, p);
    } else {
      OthersKeepBook(s, scale, auths, a);
    }
  }

  /** Over every run an account starts or stops being an active producer only in an event that executes a not yet
      executed proposal to add or to remove it, whose yes votes lead by more than a tenth of the total, with the
      account's own authority; or when the system account removes it. */
  lemma {:induction false} ElectedByProposal(states: seq<State>, events: seq<Event>, opening: nat, i: nat, p: Name)
    requires IsRun(states, events) && Inv(states[0], opening) && i < |events|
    requires Active(states[i].core.book.producers, p) != Active(states[i + 1].core.book.producers, p)
    ensures var s, ev, active := states[i], events[i], Active(states[i + 1].core.book.producers, p);
      && Commits(s, ev)
      && (|| (ev.action.RmvProducer? && ev.action.producer == p && !active)
          || (&& ev.action.ExecProposal? && ev.action.id in s.core.polls.proposals && p in ev.auths && p in s.gnodes
              && var prop := s.core.polls.proposals[ev.action.id];
                 && prop.account == p && prop.kind == (if active then 1 else 2) && !prop.executed
                 && 10 * (prop.yeas - prop.nays) > s.core.polls.stake))
  {
    hide Inv, Legal, Ready, Apply, Active, IsRun;
    RunNext(states, events, i);
    RunSound(states, events, opening, i);
    var s, ev := states[i], events[i];
    TimePasses(s, ev.micros, opening);
    ApplyStatus(At(s, ev.micros), ev.scale, ev.auths, ev.action, p);
    StakeNonNegative(s, opening);
    if ev.action.ExecProposal? { ExecEvent(s, ev, ev.action.id); }
  }

  lemma {:induction false} RunNext(states: seq<State>, events: seq<Event>, i: nat)
    requires IsRun(states, events) && i < |events|
    ensures i + 1 < |states| && Next(states[i], events[i], states[i + 1])
  {
    hide Next;
  }

  // ---------------------------------------------------------------- producer_num

  /** producer_num minus the number of active producers. */
  ghost function Excess(num: int, ps: Producers): int { num - |Schedule.ActiveSet(ps)| }

  /** The actions that move one of the two without the other: removing a producer by the system account,
      electing an active one again, or voting out one that is not active. */
  ghost predicate Miscounts(s: State, a: Action) {
    || (a.RmvProducer? && Active(s.core.book.producers, a.producer))
    || (&& a.ExecProposal? && a.id in s.core.polls.proposals
        && var prop := s.core.polls.proposals[a.id];
           GovernanceLaws.Wins(prop, s.core.polls.stake)
           && ((prop.kind == 1 && Active(s.core.book.producers, prop.account))
               || (prop.kind == 2 && !Active(s.core.book.producers, prop.account))))
  }

  lemma {:induction false} SameActives(ps: Producers, ps': Producers)
    requires forall p: Name {:trigger Active(ps', p)} :: Active(ps', p) == Active(ps, p)
    ensures Schedule.ActiveSet(ps') == Schedule.ActiveSet(ps)
  {
    forall p: Name ensures p in Schedule.ActiveSet(ps') <==> p in Schedule.ActiveSet(ps) { assert Active(ps', p) == Active(ps, p); }
  }

  /** One account's status changes. */
  lemma {:induction false} OneActive(ps: Producers, ps': Producers, q: Name)
    requires forall p: Name {:trigger Active(ps', p)} :: p != q ==> Active(ps', p) == Active(ps, p)
    ensures |Schedule.ActiveSet(ps')| == |Schedule.ActiveSet(ps)|
      + (if Active(ps', q) then 1 else 0) - (if Active(ps, q) then 1 else 0)
  {
    hide Schedule.ActiveSet, Active;
    var s, s' := Schedule.ActiveSet(ps), Schedule.ActiveSet(ps');
    forall p: Name ensures (p in s <==> Active(ps, p)) && (p in s' <==> Active(ps', p)) {
      InActives(ps, p);
      InActives(ps', p);
    }
    assert s - {q} == s' - {q};
    CountWithout(s, q);
    CountWithout(s', q);
  }

  lemma {:induction false} InActives(ps: Producers, p: Name)
    ensures p in Schedule.ActiveSet(ps) <==> Active(ps, p)
  {
  }

  lemma {:induction false} CountWithout(s: set<Name>, q: Name)
    ensures |s| == |s - {q}| + if q in s then 1 else 0
  {
    if q in s { assert s == (s - {q}) + {q}; } else { assert s == s - {q}; }
  }

  lemma {:induction false} ExecExcess(x: G.Effect, polls: Polls.Tables, e: S.Env, auths: set<Name>, owner: Name,
                                      id: nat)
    requires G.ExecProposal(x, polls, e, auths, owner, id).Commit?
    ensures var x' := G.ExecProposal(x, polls, e, auths, owner, id).value.0;
      id in polls.proposals
      && var prop := polls.proposals[id];
         (Excess(x'.producerNum, x'.producers) != Excess(x.producerNum, x.producers)
          <==> GovernanceLaws.Wins(prop, polls.stake)
               && ((prop.kind == 1 && Active(x.producers, prop.account)) || (prop.kind == 2 && !Active(x.producers, prop.account))))
  {
    hide GovernanceLaws.Wins, G.ExecProposal, Schedule.ActiveSet;
    GovernanceLaws.ExecDecides(x, polls, e, auths, owner, id);
    var x', prop := G.ExecProposal(x, polls, e, auths, owner, id).value.0, polls.proposals[id];
    assert forall p: Name {:trigger Active(x'.producers, p)} :: p != prop.account ==> Active(x'.producers, p) == Active(x.producers, p);
    OneActive(x.producers, x'.producers, prop.account);
  }

  lemma {:induction false} RmvExcess(ps: Producers, q: Name, num: int)
    requires G.RmvProducer(ps, q).Commit?
    ensures Excess(num, G.RmvProducer(ps, q).value) != Excess(num, ps) <==> Active(ps, q)
  {
    hide Schedule.ActiveSet;
    OneActive(ps, G.RmvProducer(ps, q).value, q);
  }

  lemma {:induction false} OthersKeepNum(s: State, scale: real, auths: set<Name>, a: Action)
    requires Ready(s) && Legal(s, a) && !a.ExecProposal?
    ensures var r := Apply(s, scale, auths, a);
      r.Commit? ==> r.value.producerNum == s.producerNum && r.value.consensus == s.consensus
  {
    hide Sound, S.Delegate, S.Undelegate, UpdateVotes, V.RegProxy, Polls.VoteProposal, R.BuyRam, R.BuyRamBytes;
    hide R.SellRam, R.SetRam;
    hide G.StakeToGnode, G.UnstakeGnode, G.UpdateGnode, G.NewProposal, G.ExecProposal, G.RmvProducer, B.OnBlock;
    hide G.ClaimRewards;
    hide A.PlaceBid, A.NewAccount, G.IsAvailable, A.IsFirst, Token.Apply, S.Refund;
  }

  /** producer_num is not in general the number of active producers: an action changes the difference if
      and only if it is one of the three kinds that miscount. */
  lemma {:induction false} ApplyExcess(s: State, scale: real, auths: set<Name>, a: Action)
    requires Ready(s) && Legal(s, a) && Apply(s, scale, auths, a).Commit?
    ensures var s' := Apply(s, scale, auths, a).value;
      Excess(s'.producerNum, s'.core.book.producers) != Excess(s.producerNum, s.core.book.producers) <==> Miscounts(s, a)
  {
    hide Ready, Legal, GovernanceLaws.Wins, Schedule.ActiveSet, Active, Excess, G.ExecProposal, G.RmvProducer, Decides;
    var s' := Apply(s, scale, auths, a).value;
    if a.ExecProposal? {
      ExecExcess(s.Governed(), s.core.polls, s.Env(scale), auths, a.owner, a.id);
    } else if a.RmvProducer? {
      RmvExcess(s.core.book.producers, a.producer, s.producerNum);
    } else {
      hide Apply;
      OthersKeepNum(s, scale, auths, a);
      forall p: Name ensures Active(s'.core.book.producers, p) == Active(s.core.book.producers, p) { ApplyStatus(s, scale, auths, a, p); }
      SameActives(s.core.book.producers, s'.core.book.producers);
      SameExcess(s.producerNum, s.core.book.producers, s'.core.book.producers);
    }
  }

  lemma {:induction false} SameExcess(num: int, ps: Producers, ps': Producers)
    requires Schedule.ActiveSet(ps') == Schedule.ActiveSet(ps)
    ensures Excess(num, ps') == Excess(num, ps)
  {
  }

  /** In every run without such an action producer_num follows the number of active producers. */
  lemma {:induction false} RunProducerNum(states: seq<State>, events: seq<Event>, opening: nat, i: nat)
    requires IsRun(states, events) && Inv(states[0], opening) && i < |states|
    requires forall k | 0 <= k < i :: !(Commits(states[k], events[k]) && Miscounts(states[k], events[k].action))
    ensures Excess(states[i].producerNum, states[i].core.book.producers) == Excess(states[0].producerNum, states[0].core.book.producers)
    decreases i
  {
    hide Inv, Next, Miscounts, Excess, Commits;
    if i > 0 {
      RunProducerNum(states, events, opening, i - 1);
      RunSound(states, events, opening, i - 1);
      assert Next(states[i - 1], events[i - 1], states[i]);
      assert !(Commits(states[i - 1], events[i - 1]) && Miscounts(states[i - 1], events[i - 1].action));
      NextExcess(states[i - 1], events[i - 1], states[i], opening);
    }
  }

  lemma {:induction false} NextExcess(s: State, ev: Event, s': State, opening: nat)
    requires Inv(s, opening) && Next(s, ev, s')
    ensures Excess(s'.producerNum, s'.core.book.producers) != Excess(s.producerNum, s.core.book.producers)
      <==> Commits(s, ev) && Miscounts(s, ev.action)
  {
    hide Inv, Legal, Ready, Apply, Excess, Active, GovernanceLaws.Wins;
    TimePasses(s, ev.micros, opening);
    if Commits(s, ev) { ApplyExcess(At(s, ev.micros), ev.scale, ev.auths, ev.action); }
  }

  // ---------------------------------------------------------------- producer_num, in numbers

  const ELECTED := Producer(0.0, 1, true, "", 0, 0, 0)
  const NODE := G.GNode(6, G.GNODE_FEE, 0, true, 1, "", 0)

  /** The chain with account 6 elected as its one producer. */
  function OneProducer(token: Token.State, supply: nat): State {
    Genesis(token, supply, {6, SYSTEM}, 0).WithProducers(map[6 := ELECTED]).(gnodes := map[6 := NODE], producerNum := 1)
  }

  lemma {:induction false} OneProducerInv(token: Token.State, supply: nat)
    requires Token.Sound(token) && CoreLive(token)
    ensures Inv(OneProducer(token, supply), supply / 1000)
  {
    hide Token.Sound, LedgerSound, Polls.Sound, RamLaws.RamSound, AuctionLaws.AuctionSound, Sum, Acyclic;
    GenesisInv(token, supply, {6, SYSTEM}, 0);
    var ps: Producers := map[6 := ELECTED];
    SumZero(GovernanceLaws.UnpaidColumn(ps));
    forall p | p in ps ensures GovernanceLaws.Backed(ps, map[6 := NODE], p) {}
  }

  /** rmvproducer takes the one producer away and leaves producer_num at one. */
  lemma {:induction false} RemovedButCounted(token: Token.State, supply: nat)
    requires Token.Sound(token) && CoreLive(token)
    ensures var s := OneProducer(token, supply);
      && Inv(s, supply / 1000) && Ready(s) && Legal(s, RmvProducer(6))
      && Excess(s.producerNum, s.core.book.producers) == 0
      && var r := Apply(s, 1.0, {}, RmvProducer(6));
         r.Commit? && r.value.producerNum == 1 && Schedule.ActiveSet(r.value.core.book.producers) == {}
  {
    hide Token.Sound, Inv, Sound, RamLaws.RamSound;
    var s := OneProducer(token, supply);
    OneProducerInv(token, supply);
    RamLive(s, supply / 1000);
    assert Schedule.ActiveSet(s.core.book.producers) == {6};
  }
}
