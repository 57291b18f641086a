/** Votes over whole runs: cached sums stay exact while no change is dropped, and what the dispatched
    actions alone can ever reach. */
module ChainVotes {
  import opened Base
  import opened Votes
  import V = Votes
  import opened VoteSums
  import opened VoteExact
  import Polls
  import VoteWeight
  import Token
  import S = Staking
  import opened StakingLaws
  import R = RamMarket
  import G = Governance
  import A = Auctions
  import B = Blocks
  import Schedule
  import X = Exchange
  import opened Chain
  import opened ChainLaws
  import opened ChainSteps
  import opened ChainRuns

  // ---------------------------------------------------------------- stakes and registrations

  /** A change of stake casts nothing. */
  lemma {:induction false} StakeRowClean(b: Book, v: Name, staked: int)
    requires Clean(b) && v in b.voters && staked >= 0
    ensures Clean(b.(voters := b.voters[v := b.voters[v].(staked := staked)]))
  {
    hide RSum, Acyclic;
    var row := b.voters[v].(staked := staked);
    var b' := b.(voters := b.voters[v := row]);
    assert Edges(b'.voters) == Edges(b.voters);
    assert RowSound(b.voters[v]);
    forall q | q in b'.voters ensures ProxyGap(b', NO_NAME, q) == 0.0 {
      assert ProxyGap(b, NO_NAME, q) == 0.0;
      ClientSumRow(b.voters, NO_NAME, q, v, row);
    }
    forall p | p in b'.producers ensures ProducerGap(b', NO_NAME, p) == 0.0 {
      assert ProducerGap(b, NO_NAME, p) == 0.0;
      BallotSumRow(b.voters, NO_NAME, p, v, row);
    }
    forall u | u in b'.voters ensures Registered(b'.voters[u].producers, b'.producers) {
      assert Registered(b.voters[u].producers, b.producers);
    }
  }

  lemma {:induction false} AddStakeClean(b: Book, from: Name, d: int, now: nat)
    requires Clean(b) && from != NO_NAME && S.AddStake(b, from, d, now).Commit?
    ensures Clean(S.AddStake(b, from, d, now).value)
  {
    hide Clean, S.Vested;
    if from in b.voters {
      StakeRowClean(b, from, b.voters[from].staked + d);
    } else {
      NewVoterClean(b, from, false);
      var b1 := b.(voters := b.voters[from := NEW_VOTER.(isProxy := false)]);
      StakeRowClean(b1, from, d);
      assert b1.voters[from := b1.voters[from].(staked := d)] == b.voters[from := NEW_VOTER.(staked := d)];
    }
  }

  /** New producers start without votes, and nobody has voted for them. */
  lemma {:induction false} ProducersClean(b: Book, ps: Producers)
    requires Clean(b)
    requires forall p <- b.producers :: p in ps && ps[p].votes == b.producers[p].votes
    requires forall p <- ps :: p !in b.producers ==> ps[p].votes == 0.0
    ensures Clean(b.(producers := ps))
  {
    hide RSum, Sound;
    var b' := b.(producers := ps);
    BookSound(b, b');
    forall q | q in b'.voters ensures ProxyGap(b', NO_NAME, q) == 0.0 { assert ProxyGap(b, NO_NAME, q) == 0.0; }
    forall p | p in ps ensures ProducerGap(b', NO_NAME, p) == 0.0 {
      if p in b.producers { assert ProducerGap(b, NO_NAME, p) == 0.0; } else { NoBallots(b, p); }
    }
    forall u | u in b'.voters ensures Registered(b'.voters[u].producers, ps) {
      assert Registered(b.voters[u].producers, b.producers);
    }
    RSumWithin(VoteColumn(ps), VoteColumn(b.producers));
  }

  lemma {:induction false} BookSound(b: Book, b': Book)
    requires Sound(b) && b'.voters == b.voters
    ensures Sound(b')
  {
  }

  lemma {:induction false} NoBallots(b: Book, p: Name)
    requires Listed(b) && p !in b.producers
    ensures BallotSum(b.voters, NO_NAME, p) == 0.0
  {
    hide RSum;
    forall u | u in b.voters ensures p !in b.voters[u].producers { assert Registered(b.voters[u].producers, b.producers); }
    RSumZero(BallotColumn(b.voters, NO_NAME, p));
  }

  // ---------------------------------------------------------------- exact sums over lossless runs

  /** The account whose stake a staking action moves, and by how much. */
  function Charged(a: Action): (Name, int) {
    match a
    case Delegate(from, receiver, net, cpu, transfer) => (if transfer then receiver else from, net + cpu)
    case Undelegate(from, receiver, net, cpu) => (from, -net - cpu)
    case _ => (NO_NAME, 0)
  }

  /** Re-applying the stored vote after a change of stake drops nothing. */
  ghost predicate StakeLossless(b: Book, from: Name, d: int, now: nat, scale: real)
    requires Sound(b)
  {
    var r := S.AddStake(b, from, d, now);
    if from == NO_NAME || r.Abort? then true else
      S.AddStakeSound(b, from, d, now);
      S.HasVote(r.value, from) ==> Lossless(r.value, from, r.value.voters[from].proxy, scale)
  }

  /** No propagation caused by the action drops a change that would have reached anybody. */
  ghost predicate ActionLossless(s: State, scale: real, a: Action)
    requires Ready(s)
  {
    var b := s.core.book;
    match a
    case VoteProducer(voter, proxy, producers) => Lossless(b, voter, proxy, scale)
    case RegProxy(voter, isProxy) => Benign(b, FlagTrail(b, voter, isProxy, scale))
    case _ => StakeLossless(b, Charged(a).0, Charged(a).1, s.Now(), scale)
  }

  lemma {:induction false} StakeVotesClean(b: Book, e: S.Env, from: Name, d: int)
    requires Clean(b) && from != NO_NAME && e.scale >= 0.0 && StakeLossless(b, from, d, e.Now(), e.scale)
    ensures var r := S.StakeVotes(b, e, from, d); r.Commit? ==> Clean(r.value)
  {
    hide Lossless, UpdateVotes, S.AddStake, Listed, Exact, Solvent, Acyclic;
    if S.StakeVotes(b, e, from, d).Commit? {
      S.AddStakeSound(b, from, d, e.Now());
      AddStakeClean(b, from, d, e.Now());
      var b1 := S.AddStake(b, from, d, e.Now()).value;
      if S.HasVote(b1, from) {
        UpdateVotesExact(b1, from, b1.voters[from].proxy, b1.voters[from].producers, false, e.scale);
      }
    }
  }

  /** The book after a staking action is the book after its last block. */
  lemma {:induction false} DelegateBook(c: S.Core, e: S.Env, from: Name, receiver: Name, net: int, cpu: int,
                                        transfer: bool)
    requires Sound(c.book) && from != NO_NAME && receiver != NO_NAME
    requires S.Delegate(c, e, from, receiver, net, cpu, transfer).Commit?
    ensures var c' := S.Delegate(c, e, from, receiver, net, cpu, transfer).value;
      var account := if transfer then receiver else from;
      S.StakeVotes(c.book, e, account, net + cpu) == Commit(c'.book) && (!S.HasVote(c.book, account) ==> c'.threshold == c.threshold)
  {
    hide Sound, S.Booked, S.Pay, S.StakeVotes, S.Reweighed;
    var c1 := S.ChangeBandwidth(c, e, from, receiver, net, cpu, transfer).value;
    var account := if transfer then receiver else from;
    ReweighedFrame(c1, account, VoteWeight.Weight(Polls.StakeOf(c.book.voters, account)), e.Now());
  }

  lemma {:induction false} UndelegateBook(c: S.Core, e: S.Env, from: Name, receiver: Name, net: int, cpu: int)
    requires Sound(c.book) && from != NO_NAME && receiver != NO_NAME
    requires S.Undelegate(c, e, from, receiver, net, cpu).Commit?
    ensures var c' := S.Undelegate(c, e, from, receiver, net, cpu).value;
      S.StakeVotes(c.book, e, from, -net - cpu) == Commit(c'.book) && (!S.HasVote(c.book, from) ==> c'.threshold == c.threshold)
  {
    hide Sound, S.Booked, S.Pay, S.StakeVotes, S.Reweighed;
    var c1 := S.ChangeBandwidth(c, e, from, receiver, -net, -cpu, false).value;
    ReweighedFrame(c1, from, VoteWeight.Weight(Polls.StakeOf(c.book.voters, from)), e.Now());
  }

  /** A committed staking action ends with the revote of the account it charges. */
  lemma {:induction false} StakingBook(s: State, scale: real, auths: set<Name>, a: Action)
    requires Ready(s) && Legal(s, a) && (a.Delegate? || a.Undelegate?)
    ensures Charged(a).0 != NO_NAME
    ensures var r := Apply(s, scale, auths, a);
      r.Commit? ==>
        && Sound(s.core.book)
        && S.StakeVotes(s.core.book, s.Env(scale), Charged(a).0, Charged(a).1) == Commit(r.value.core.book)
        && (!S.HasVote(s.core.book, Charged(a).0) ==> r.value.core.threshold == s.core.threshold)
  {
    hide Sound, S.Delegate, S.Undelegate, S.StakeVotes;
    if Apply(s, scale, auths, a).Commit? {
      match a {
        case Delegate(from, receiver, net, cpu, transfer) => DelegateBook(s.core, s.Env(scale), from, receiver, net, cpu, transfer);
        case Undelegate(from, receiver, net, cpu) => UndelegateBook(s.core, s.Env(scale), from, receiver, net, cpu);
      }
    }
  }

  lemma {:induction false} StakingClean(s: State, scale: real, auths: set<Name>, a: Action)
    requires Ready(s) && Legal(s, a) && (a.Delegate? || a.Undelegate?)
    requires Clean(s.core.book) && scale >= 0.0 && ActionLossless(s, scale, a)
    ensures var r := Apply(s, scale, auths, a); r.Commit? ==> Clean(r.value.core.book)
  {
    hide Ready, Legal, Apply, Clean, StakeLossless, S.StakeVotes;
    StakingBook(s, scale, auths, a);
    StakeVotesClean(s.core.book, s.Env(scale), Charged(a).0, Charged(a).1);
  }

  lemma {:induction false} VoteBookIs(s: State, scale: real, auths: set<Name>, a: Action)
    requires Ready(s) && Legal(s, a) && a.VoteProducer? && Apply(s, scale, auths, a).Commit?
    ensures UpdateVotes(s.core.book, a.voter, a.proxy, a.producers, true, scale) == Commit(Apply(s, scale, auths, a).value.core.book)
  {
    hide Sound, UpdateVotes;
  }

  lemma {:induction false} ProxyBookIs(s: State, scale: real, auths: set<Name>, a: Action)
    requires Ready(s) && Legal(s, a) && a.RegProxy? && Apply(s, scale, auths, a).Commit?
    ensures a.voter != NO_NAME
    ensures V.RegProxy(s.core.book, a.voter, a.isProxy, scale) == Commit(Apply(s, scale, auths, a).value.core.book)
  {
    hide Sound, V.RegProxy;
  }

  /** Producers keep their votes; new ones have none. */
  ghost predicate SameVotes(ps: Producers, ps': Producers) {
    && (forall p <- ps :: p in ps' && ps'[p].votes == ps[p].votes)
    && (forall p <- ps' :: p !in ps ==> ps'[p].votes == 0.0)
  }

  lemma {:induction false} CarryVotes(x: G.Effect, p: Polls.Proposal, auths: set<Name>)
    ensures var r := G.Carry(x, p, auths); r.Commit? ==> SameVotes(x.producers, r.value.producers)
  {
  }

  lemma {:induction false} VotesKept(ps: Producers)
    ensures SameVotes(ps, ps)
  {
  }

  lemma {:induction false} ExecVotes(x: G.Effect, polls: Polls.Tables, e: S.Env, auths: set<Name>, owner: Name, id: nat)
    ensures var r := G.ExecProposal(x, polls, e, auths, owner, id);
      r.Commit? ==> SameVotes(x.producers, r.value.0.producers)
  {
    hide G.Carry, G.Passes, G.ProducersSize, SameVotes;
    VotesKept(x.producers);
    if id in polls.proposals { CarryVotes(x, polls.proposals[id], auths); }
  }

  lemma {:induction false} RmvVotes(ps: Producers, p: Name)
    ensures var r := G.RmvProducer(ps, p); r.Commit? ==> SameVotes(ps, r.value)
  {
  }

  lemma {:induction false} BlockVotes(t: B.Tables, stake: int, num: int, threshold: nat, micros: nat, slot: int,
                                      producer: Name, first: Name)
    requires t.bids != map[] ==> A.IsFirst(t.bids, first)
    ensures SameVotes(t.producers, B.OnBlock(t, stake, num, threshold, micros, slot, producer, first).producers)
  {
    hide A.CloseFirst, A.IsFirst;
  }

  lemma {:induction false} ClaimVotes(token: Token.State, ps: Producers, w: G.Rewards, stake: int, e: S.Env,
                                      owner: Name)
    ensures var r := G.ClaimRewards(token, ps, w, stake, e, owner); r.Commit? ==> SameVotes(ps, r.value.1)
  {
    hide S.Pay;
  }

  /** The actions that can touch voters or producers. */
  predicate TouchesBook(a: Action) { CastsVotes(a) || a.ExecProposal? || a.RmvProducer? || a.OnBlock? || a.ClaimRewards? }

  predicate CastsVotes(a: Action) { a.Delegate? || a.Undelegate? || a.VoteProducer? || a.RegProxy? }

  lemma {:induction false} OthersKeepBook(s: State, scale: real, auths: set<Name>, a: Action)
    requires Ready(s) && Legal(s, a) && !TouchesBook(a)
    ensures var r := Apply(s, scale, auths, a);
      r.Commit? ==> r.value.core.book == s.core.book && r.value.core.threshold == s.core.threshold
  {
    hide Sound, Polls.VoteProposal, R.BuyRam, R.BuyRamBytes, R.SellRam, R.SetRam, G.ExecProposal, G.ClaimRewards;
    hide B.OnBlock;
    hide G.StakeToGnode, G.UnstakeGnode, G.UpdateGnode, G.NewProposal, G.RmvProducer, S.Delegate, S.Undelegate;
    hide V.RegProxy;
    hide A.PlaceBid, A.NewAccount, G.IsAvailable, A.IsFirst, Token.Apply, S.Pay, S.VoteProducer;
    match a {
      case BuyRam(payer, receiver, quant) => TradesKeepBook(s, scale, payer, receiver, quant);
      case BuyRamBytes(payer, receiver, bytes) => BytesKeepBook(s, scale, payer, receiver, bytes);
      case SellRam(owner, sold) => TradesKeepBook(s, scale, owner, owner, sold);
      case _ =>
    }
  }

  /** Every action but the votes themselves and staking leaves voters and votes alone. */
  lemma {:induction false} ApplyVotes(s: State, scale: real, auths: set<Name>, a: Action)
    requires Ready(s) && Legal(s, a) && !CastsVotes(a)
    ensures var r := Apply(s, scale, auths, a);
      r.Commit? ==>
        && r.value.core.book == s.core.book.(producers := r.value.core.book.producers)
        && SameVotes(s.core.book.producers, r.value.core.book.producers)
        && r.value.core.threshold == s.core.threshold
  {
    hide Ready, Legal, Apply, TouchesBook, CastsVotes, SameVotes;
    if TouchesBook(a) {
      RegisterVotes(s, scale, auths, a);
    } else {
      VotesKept(s.core.book.producers);
      OthersKeepBook(s, scale, auths, a);
    }
  }

  lemma {:induction false} RegisterVotes(s: State, scale: real, auths: set<Name>, a: Action)
    requires Ready(s) && Legal(s, a) && TouchesBook(a) && !CastsVotes(a)
    ensures var r := Apply(s, scale, auths, a);
      r.Commit? ==>
        && r.value.core.book == s.core.book.(producers := r.value.core.book.producers)
        && SameVotes(s.core.book.producers, r.value.core.book.producers)
        && r.value.core.threshold == s.core.threshold
  {
    hide Ready, SameVotes, G.ExecProposal, G.RmvProducer, B.OnBlock, G.ClaimRewards, A.IsFirst;
    match a {
      case ExecProposal(owner, id) => ExecVotes(s.Governed(), s.core.polls, s.Env(scale), auths, owner, id);
      case RmvProducer(producer) => RmvVotes(s.core.book.producers, producer);
      case OnBlock(slot, producer, first) =>
        BlockVotes(s.Blocks(), s.core.polls.stake, s.producerNum, s.core.threshold, s.micros, slot, producer, first);
      case ClaimRewards(owner) => ClaimVotes(s.core.token, s.core.book.producers, s.rewards, s.core.polls.stake, s.Env(scale), owner);
    }
  }

  lemma {:induction false} TradesKeepBook(s: State, scale: real, payer: Name, receiver: Name, amount: int)
    requires R.Live(s.ram.market)
    ensures var r := R.BuyRam(s.core, s.ram, s.Env(scale), payer, receiver, amount);
      r.Commit? ==> r.value.0.book == s.core.book && r.value.0.threshold == s.core.threshold
    ensures var r := R.SellRam(s.core, s.ram, s.Env(scale), receiver, amount);
      r.Commit? ==> r.value.0.book == s.core.book && r.value.0.threshold == s.core.threshold
  {
    hide S.Pay, X.Swap;
  }

  lemma {:induction false} BytesKeepBook(s: State, scale: real, payer: Name, receiver: Name, bytes: nat)
    requires R.Live(s.ram.market) && s.ram.market.base + bytes > 0
    ensures var r := R.BuyRamBytes(s.core, s.ram, s.Env(scale), payer, receiver, bytes);
      r.Commit? ==> r.value.0.book == s.core.book && r.value.0.threshold == s.core.threshold
  {
    hide R.BuyRam, X.Swap;
    TradesKeepBook(s, scale, payer, receiver, X.Swap(s.ram.market, X.Ram, bytes).1);
  }

  lemma {:induction false} ApplyClean(s: State, scale: real, auths: set<Name>, a: Action, opening: nat)
    requires Inv(s, opening) && Ready(s) && Legal(s, a)
    requires Clean(s.core.book) && scale >= 0.0 && ActionLossless(s, scale, a)
    ensures var r := Apply(s, scale, auths, a); r.Commit? ==> Clean(r.value.core.book)
  {
    hide Inv, Clean, Lossless, FlagTrail, StakeLossless, UpdateVotes, V.RegProxy, S.Delegate, S.Undelegate;
    if a.Delegate? || a.Undelegate? {
      hide Apply;
      StakingClean(s, scale, auths, a);
    } else if a.VoteProducer? {
      UpdateVotesExact(s.core.book, a.voter, a.proxy, a.producers, true, scale);
    } else if a.RegProxy? {
      RegProxyExact(s.core.book, a.voter, a.isProxy, scale);
    } else {
      hide Apply;
      ApplyVotes(s, scale, auths, a);
      var r := Apply(s, scale, auths, a);
      if r.Commit? { ProducersClean(s.core.book, r.value.core.book.producers); }
    }
  }

  /** All changes that the two propagations of update_votes drop on the way to anybody cancel. */
  ghost predicate VoteExactly(b: Book, v: Name, proxy: Name, scale: real)
    requires Sound(b)
  {
    v in b.voters && Leave(b, b.voters[v], scale).Commit? ==>
      && (forall q <- b.voters :: LostWeight(b, v, proxy, scale, q) == 0.0)
      && (forall p <- b.producers :: LostVotes(b, v, proxy, scale, p) == 0.0)
  }

  ghost predicate StakeExactly(b: Book, from: Name, d: int, now: nat, scale: real)
    requires Sound(b)
  {
    var r := S.AddStake(b, from, d, now);
    if from == NO_NAME || r.Abort? then true else
      S.AddStakeSound(b, from, d, now);
      S.HasVote(r.value, from) ==> VoteExactly(r.value, from, r.value.voters[from].proxy, scale)
  }

  /** What the tables before each propagation of an action say about the sums after it. */
  ghost predicate KeepsExact(s: State, scale: real, a: Action)
    requires Ready(s)
  {
    var b := s.core.book;
    match a
    case VoteProducer(voter, proxy, producers) => VoteExactly(b, voter, proxy, scale)
    case RegProxy(voter, isProxy) => Benign(b, FlagTrail(b, voter, isProxy, scale))
    case _ => StakeExactly(b, Charged(a).0, Charged(a).1, s.Now(), scale)
  }

  lemma {:induction false} StakeExactIff(b: Book, e: S.Env, from: Name, d: int)
    requires Clean(b) && from != NO_NAME && e.scale >= 0.0 && S.StakeVotes(b, e, from, d).Commit?
    ensures Exact(S.StakeVotes(b, e, from, d).value) <==> StakeExactly(b, from, d, e.Now(), e.scale)
  {
    hide UpdateVotes, S.AddStake, Listed, Exact, Solvent, Acyclic, LostWeight, LostVotes, Leave;
    S.AddStakeSound(b, from, d, e.Now());
    AddStakeClean(b, from, d, e.Now());
    var b1 := S.AddStake(b, from, d, e.Now()).value;
    if S.HasVote(b1, from) {
      UpdateVotesExactIff(b1, from, b1.voters[from].proxy, b1.voters[from].producers, false, e.scale);
    }
  }

  lemma {:induction false} NobodyStakes(s: State, scale: real, a: Action)
    requires Ready(s) && !a.Delegate? && !a.Undelegate? && !a.VoteProducer? && !a.RegProxy?
    ensures KeepsExact(s, scale, a)
  {
    hide Sound, S.AddStake, LostWeight, LostVotes, Leave;
  }

  /** From exact sums, a committed action leaves them exact if and only if the tables before each of its propagations
      say so. */
  lemma {:induction false} ApplyExactIff(s: State, scale: real, auths: set<Name>, a: Action)
    requires Ready(s) && Legal(s, a) && Clean(s.core.book) && scale >= 0.0 && Apply(s, scale, auths, a).Commit?
    ensures Exact(Apply(s, scale, auths, a).value.core.book) <==> KeepsExact(s, scale, a)
  {
    hide Legal, Apply, Exact, S.StakeVotes, UpdateVotes, V.RegProxy, StakeExactly, Benign, Acyclic, SameVotes, Leave;
    hide LostWeight, LostVotes;
    var s' := Apply(s, scale, auths, a).value;
    if a.Delegate? || a.Undelegate? {
      StakingBook(s, scale, auths, a);
      StakeExactIff(s.core.book, s.Env(scale), Charged(a).0, Charged(a).1);
    } else if a.VoteProducer? {
      VoteBookIs(s, scale, auths, a);
      UpdateVotesExactIff(s.core.book, a.voter, a.proxy, a.producers, true, scale);
    } else if a.RegProxy? {
      ProxyBookIs(s, scale, auths, a);
      RegProxyExactIff(s.core.book, a.voter, a.isProxy, scale);
    } else {
      NobodyStakes(s, scale, a);
      ApplyVotes(s, scale, auths, a);
      VotesClean(s.core.book, s'.core.book.producers);
    }
  }

  lemma {:induction false} VotesClean(b: Book, ps: Producers)
    requires Clean(b) && SameVotes(b.producers, ps)
    ensures Exact(b.(producers := ps))
  {
    hide Sound, Exact;
    ProducersClean(b, ps);
  }

  ghost predicate EventLossless(s: State, ev: Event) {
    Ready(At(s, ev.micros)) ==> ActionLossless(At(s, ev.micros), ev.scale, ev.action)
  }

  /** Over every run in which no propagation drops a change that would have reached anybody, every producer's votes, every
      proxied weight and the total equal their recounts in every state. */
  lemma {:induction false} RunExact(states: seq<State>, events: seq<Event>, opening: nat, i: nat)
    requires IsRun(states, events) && Inv(states[0], opening) && i < |states|
    requires Clean(states[0].core.book)
    requires forall k | 0 <= k < i :: EventLossless(states[k], events[k])
    ensures Clean(states[i].core.book)
    decreases i
  {
    hide Inv, Next, Clean, EventLossless;
    if i > 0 {
      RunExact(states, events, opening, i - 1);
      RunSound(states, events, opening, i - 1);
      assert Next(states[i - 1], events[i - 1], states[i]) && EventLossless(states[i - 1], events[i - 1]);
      NextExact(states[i - 1], events[i - 1], states[i], opening);
    }
  }

  lemma {:induction false} NextExact(s: State, ev: Event, s': State, opening: nat)
    requires Inv(s, opening) && Next(s, ev, s') && Clean(s.core.book) && EventLossless(s, ev)
    ensures Clean(s'.core.book)
  {
    hide Inv, Legal, Ready, Apply, Clean, ActionLossless;
    TimePasses(s, ev.micros, opening);
    ApplyClean(At(s, ev.micros), ev.scale, ev.auths, ev.action, opening);
  }

  // ---------------------------------------------------------------- what the dispatch list leaves out

  /** Nobody has voted for producers or a proxy, no producer has votes, the chain was never activated by
      a vote, and no auction is closed. */
  ghost predicate Dormant(s: State) {
    && (forall v <- s.core.book.voters :: s.core.book.voters[v].producers == [] && s.core.book.voters[v].proxy == NO_NAME)
    && (forall p <- s.core.book.producers :: s.core.book.producers[p].votes == 0.0)
    && s.core.threshold == 0
    && (forall n <- s.bids :: s.bids[n].high > 0)
  }

  /** A walk from a voter without proxy and ballot changes only that voter's last weight. */
  lemma {:induction false} IdleWalk(b: Book, v: Name, scale: real)
    requires Sound(b) && v in b.voters && b.voters[v].proxy == NO_NAME && b.voters[v].producers == []
    ensures var b' := Walk(b, v, scale).book; SameBallots(b.voters, b'.voters) && b'.producers == b.producers
  {
  }

  lemma {:induction false} RegProxyDormant(s: State, scale: real, voter: Name, isProxy: bool)
    requires Dormant(s) && Sound(s.core.book) && voter != NO_NAME
    ensures var r := V.RegProxy(s.core.book, voter, isProxy, scale); r.Commit? ==> Dormant(s.WithBook(r.value))
  {
    hide Sound, Walk;
    var b := s.core.book;
    var r := V.RegProxy(b, voter, isProxy, scale);
    if r.Commit? && voter in b.voters {
      FlagSound(b, voter, isProxy);
      IdleWalk(Flag(b, voter, isProxy), voter, scale);
    }
  }

  lemma {:induction false} StakeVotesDormant(s: State, e: S.Env, from: Name, d: int)
    requires Dormant(s) && Sound(s.core.book) && from != NO_NAME
    ensures var r := S.StakeVotes(s.core.book, e, from, d); r.Commit? ==> Dormant(s.WithBook(r.value))
  {
    hide Sound, UpdateVotes, S.Vested;
  }

  lemma {:induction false} StakingDormant(s: State, scale: real, auths: set<Name>, a: Action)
    requires Dormant(s) && Ready(s) && Legal(s, a) && (a.Delegate? || a.Undelegate?)
    ensures var r := Apply(s, scale, auths, a);
      r.Commit? ==> Dormant(s.WithBook(r.value.core.book)) && r.value.core.threshold == 0
  {
    hide Ready, Legal, Apply, S.StakeVotes, Charged, Sound;
    StakingBook(s, scale, auths, a);
    if Apply(s, scale, auths, a).Commit? { StakeVotesDormant(s, s.Env(scale), Charged(a).0, Charged(a).1); }
  }

  /** Without a vote, bids only rise and no auction closes. */
  lemma {:induction false} BidsDormant(s: State, scale: real, auths: set<Name>, a: Action)
    requires Ready(s) && Legal(s, a) && Dormant(s)
    ensures var r := Apply(s, scale, auths, a); r.Commit? ==> forall n <- r.value.bids :: r.value.bids[n].high > 0
  {
    hide Ready, Polls.VoteProposal, R.BuyRam, R.BuyRamBytes, R.SellRam, R.SetRam, G.Carry, S.Delegate, S.Undelegate;
    hide V.RegProxy;
    hide G.StakeToGnode, G.UnstakeGnode, G.UpdateGnode, G.NewProposal, G.ExecProposal, G.RmvProducer, UpdateVotes;
    hide G.ClaimRewards;
    hide G.IsAvailable, A.IsFirst, Token.Apply, S.Pay, A.Biddable, A.Suffix, A.HasDot;
  }

  /** Every dispatched action keeps the chain dormant. */
  lemma {:induction false} ApplyDormant(s: State, scale: real, auths: set<Name>, a: Action)
    requires Ready(s) && Legal(s, a) && Dormant(s) && !a.VoteProducer?
    ensures var r := Apply(s, scale, auths, a); r.Commit? ==> Dormant(r.value)
  {
    hide Sound, Legal, V.RegProxy, S.Delegate, S.Undelegate;
    BidsDormant(s, scale, auths, a);
    if a.Delegate? || a.Undelegate? {
      hide Apply;
      StakingDormant(s, scale, auths, a);
    } else if a.RegProxy? {
      EmptyNameIllegal(s, a);
      RegProxyDormant(s, scale, a.voter, a.isProxy);
    } else {
      hide Apply;
      ApplyVotes(s, scale, auths, a);
    }
  }

  lemma {:induction false} EmptyNameIllegal(s: State, a: Action)
    requires Legal(s, a) && a.RegProxy?
    ensures a.voter != NO_NAME
  {
  }

  /** voteproducer is not dispatched. Under the dispatched actions alone no auction ever closes and no
      producer ever has votes. */
  lemma {:induction false} RunDormant(states: seq<State>, events: seq<Event>, opening: nat, i: nat)
    requires IsRun(states, events) && Inv(states[0], opening) && Dormant(states[0]) && i < |states|
    requires forall k | 0 <= k < i :: !events[k].action.VoteProducer?
    ensures Dormant(states[i])
    decreases i
  {
    hide Inv, Next, Dormant;
    if i > 0 {
      RunDormant(states, events, opening, i - 1);
      RunSound(states, events, opening, i - 1);
      assert Next(states[i - 1], events[i - 1], states[i]) && !events[i - 1].action.VoteProducer?;
      NextDormant(states[i - 1], events[i - 1], states[i], opening);
    }
  }

  lemma {:induction false} NextDormant(s: State, ev: Event, s': State, opening: nat)
    requires Inv(s, opening) && Next(s, ev, s') && Dormant(s) && !ev.action.VoteProducer?
    ensures Dormant(s')
  {
    hide Inv, Legal, Ready, Apply;
    TimePasses(s, ev.micros, opening);
    ApplyDormant(At(s, ev.micros), ev.scale, ev.auths, ev.action);
  }

  /** So a name that needs a won auction can only be created by the system account. */
  lemma {:induction false} DormantNames(s: State, creator: Name, name: Name)
    requires Dormant(s) && creator != SYSTEM && A.HasDot(name) && A.Suffix(name) == name
    ensures A.NewAccount(s.core.ledger, s.bids, s.accounts, creator, name).Abort?
  {
    hide A.HasDot, A.Suffix;
  }

  /** And every schedule simply takes the active producers first in the alphabet. */
  lemma {:induction false} DormantSchedule(s: State, names: seq<Name>)
    requires Dormant(s) && Schedule.Elected(names, s.core.book.producers, s.producerNum)
    ensures forall p, q | p in names && q in s.core.book.producers && s.core.book.producers[q].active && q !in names :: p < q
  {
    forall p, q | p in names && q in s.core.book.producers && s.core.book.producers[q].active && q !in names ensures p < q {
      assert Schedule.Ahead(s.core.book.producers, p, q);
    }
  }

  // ---------------------------------------------------------------- from the start of the chain

  lemma {:induction false} GenesisVotes(token: Token.State, supply: nat, accounts: set<Name>, micros: nat)
    ensures var s := Genesis(token, supply, accounts, micros); Clean(s.core.book) && Dormant(s)
  {
    EmptyBook();
    RSumZero(VoteColumn(map[]));
  }

  /** From the start of the chain the cached sums are exact in every state of every run that drops nothing. */
  lemma {:induction false} ChainExact(token: Token.State, supply: nat, accounts: set<Name>, micros: nat,
                                      states: seq<State>, events: seq<Event>, i: nat)
    requires Token.Sound(token) && CoreLive(token)
    requires IsRun(states, events) && states[0] == Genesis(token, supply, accounts, micros) && i < |states|
    requires forall k | 0 <= k < i :: EventLossless(states[k], events[k])
    ensures Clean(states[i].core.book)
  {
    hide Token.Sound, CoreLive, Inv, Clean, EventLossless, IsRun, Genesis, Dormant;
    GenesisInv(token, supply, accounts, micros);
    GenesisVotes(token, supply, accounts, micros);
    RunExact(states, events, supply / 1000, i);
  }

  /** From the start of the chain, the actions that are dispatched never lead to a vote for a producer, a
      proxy, or the close of an auction. */
  lemma {:induction false} ChainDormant(token: Token.State, supply: nat, accounts: set<Name>, micros: nat,
                                        states: seq<State>, events: seq<Event>, i: nat)
    requires Token.Sound(token) && CoreLive(token)
    requires IsRun(states, events) && states[0] == Genesis(token, supply, accounts, micros) && i < |states|
    requires forall k | 0 <= k < i :: !events[k].action.VoteProducer?
    ensures Dormant(states[i])
  {
    hide Token.Sound, CoreLive, Inv, Clean, IsRun, Genesis, Dormant;
    GenesisInv(token, supply, accounts, micros);
    GenesisVotes(token, supply, accounts, micros);
    RunDormant(states, events, supply / 1000, i);
  }
}
