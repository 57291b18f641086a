/** Stored ballots over whole runs: when they can name an unregistered producer, and what staking can count
    on while they do not. */
module ChainBallots {
  import opened Base
  import opened Votes
  import V = Votes
  import opened VoteSums
  import opened VoteExact
  import Polls
  import Token
  import S = Staking
  import opened StakingLaws
  import RamLaws
  import GovernanceLaws
  import AuctionLaws
  import opened Chain
  import opened ChainLaws
  import opened ChainSteps
  import opened ChainAccounts
  import opened ChainRuns
  import opened ChainVotes

  /** A vote by an account of negative weight that names an unregistered producer. */
  ghost predicate Strays(s: State, scale: real, a: Action) {
    && a.VoteProducer? && a.voter in s.core.book.voters
    && CurrentWeight(s.core.book.voters[a.voter], scale) < 0.0 && !Registered(a.producers, s.core.book.producers)
  }

  lemma {:induction false} StakeListed(b: Book, e: S.Env, from: Name, d: int)
    requires Sound(b) && Listed(b) && from != NO_NAME
    ensures var r := S.StakeVotes(b, e, from, d); r.Commit? ==> Listed(r.value)
  {
    hide Sound, UpdateVotes, S.Vested, CurrentWeight;
    if S.StakeVotes(b, e, from, d).Commit? {
      S.AddStakeSound(b, from, d, e.Now());
      var b1 := S.AddStake(b, from, d, e.Now()).value;
      forall u | u in b1.voters ensures Registered(b1.voters[u].producers, b1.producers) {
        if u in b.voters { assert Registered(b.voters[u].producers, b.producers); }
      }
      assert Registered(b1.voters[from].producers, b1.producers);
      if S.HasVote(b1, from) { UpdateVotesListedIff(b1, from, b1.voters[from].proxy, b1.voters[from].producers, false, e.scale); }
    }
  }

  lemma {:induction false} RegProxyListed(b: Book, v: Name, isProxy: bool, scale: real)
    requires Sound(b) && Listed(b) && v != NO_NAME
    ensures var r := V.RegProxy(b, v, isProxy, scale); r.Commit? ==> Listed(r.value)
  {
    hide Sound, Walk, Acyclic;
    var r := V.RegProxy(b, v, isProxy, scale);
    if r.Commit? {
      if v in b.voters { FlagSound(b, v, isProxy); }
      forall u | u in r.value.voters ensures Registered(r.value.voters[u].producers, r.value.producers) {
        if u in b.voters { assert Registered(b.voters[u].producers, b.producers); }
      }
    }
  }

  lemma {:induction false} MoreProducersListed(b: Book, ps: Producers)
    requires Listed(b) && b.producers.Keys <= ps.Keys
    ensures Listed(b.(producers := ps))
  {
    var b' := b.(producers := ps);
    forall u | u in b'.voters ensures Registered(b'.voters[u].producers, b'.producers) {
      assert Registered(b.voters[u].producers, b.producers);
    }
  }

  lemma {:induction false} VotesOrder(ps: Producers, ps': Producers)
    requires SameVotes(ps, ps')
    ensures ps.Keys <= ps'.Keys
  {
  }

  /** From a book whose stored ballots are all registered, a committed action leaves one if and only if it is
      not such a vote. */
  lemma {:induction false} ApplyListed(s: State, scale: real, auths: set<Name>, a: Action)
    requires Ready(s) && Legal(s, a) && Listed(s.core.book) && Apply(s, scale, auths, a).Commit?
    ensures Listed(Apply(s, scale, auths, a).value.core.book) <==> !Strays(s, scale, a)
  {
    hide Legal, Apply, Listed, S.StakeVotes, UpdateVotes, V.RegProxy, CurrentWeight, Sound, SameVotes;
    var s' := Apply(s, scale, auths, a).value;
    if a.Delegate? || a.Undelegate? {
      StakingBook(s, scale, auths, a);
      StakeListed(s.core.book, s.Env(scale), Charged(a).0, Charged(a).1);
    } else if a.VoteProducer? {
      VoteBookIs(s, scale, auths, a);
      UpdateVotesListedIff(s.core.book, a.voter, a.proxy, a.producers, true, scale);
    } else if a.RegProxy? {
      ProxyBookIs(s, scale, auths, a);
      RegProxyListed(s.core.book, a.voter, a.isProxy, scale);
    } else {
      ApplyVotes(s, scale, auths, a);
      VotesOrder(s.core.book.producers, s'.core.book.producers);
      MoreProducersListed(s.core.book, s'.core.book.producers);
    }
  }

  ghost predicate StrayEvent(s: State, ev: Event) { Commits(s, ev) && Strays(At(s, ev.micros), ev.scale, ev.action) }

  lemma {:induction false} NextListed(s: State, ev: Event, s': State, opening: nat)
    requires Inv(s, opening) && Next(s, ev, s') && Listed(s.core.book)
    ensures Listed(s'.core.book) <==> !StrayEvent(s, ev)
  {
    hide Inv, Legal, Ready, Apply, Listed, Strays;
    TimePasses(s, ev.micros, opening);
    if Commits(s, ev) { ApplyListed(At(s, ev.micros), ev.scale, ev.auths, ev.action); }
  }

  /** In every run without such a vote all stored ballots stay registered. */
  lemma {:induction false} RunListed(states: seq<State>, events: seq<Event>, opening: nat, i: nat)
    requires IsRun(states, events) && Inv(states[0], opening) && Listed(states[0].core.book) && i < |states|
    requires forall k | 0 <= k < i :: !StrayEvent(states[k], events[k])
    ensures Listed(states[i].core.book)
    decreases i
  {
    hide Inv, Next, Listed, StrayEvent;
    if i > 0 {
      RunListed(states, events, opening, i - 1);
      RunSound(states, events, opening, i - 1);
      assert Next(states[i - 1], events[i - 1], states[i]) && !StrayEvent(states[i - 1], events[i - 1]);
      NextListed(states[i - 1], events[i - 1], states[i], opening);
    }
  }

  /** In every such run delegatebw commits exactly when the amounts are valid, what is due can be paid and the
      vesting rule allows it. */
  lemma {:induction false} RunDelegates(states: seq<State>, events: seq<Event>, opening: nat, i: nat, scale: real,
                                        from: Name, receiver: Name, net: int, cpu: int, transfer: bool)
    requires IsRun(states, events) && Inv(states[0], opening) && Present(states[0]) && Listed(states[0].core.book)
    requires i < |states|
    requires forall k | 0 <= k < i :: !StrayEvent(states[k], events[k])
    requires from != NO_NAME && receiver != NO_NAME
    ensures var c, e := states[i].core, states[i].Env(scale);
      var account, due := if transfer then receiver else from, Due(c.ledger, from, receiver, net, cpu, transfer);
      && Sound(c.book)
      && (S.Delegate(c, e, from, receiver, net, cpu, transfer).Commit? <==>
            && cpu >= 0 && net >= 0 && net + cpu > 0 && (transfer ==> from != receiver)
            && (due > 0 ==> due <= S.Funds(c.token, from))
            && (account == B1 ==> S.Vested(Polls.StakeOf(c.book.voters, account) + net + cpu, e.Now())))
  {
    hide Token.Sound, Sound, LedgerSound, Polls.Sound, RamLaws.RamSound, GovernanceLaws.GovSound;
    hide GovernanceLaws.RewardsSound;
    hide IsRun, StrayEvent, Listed, S.Delegate, Due, S.Funds, S.Vested, Owners, Payers, Bidders, RevotesAfter;
    hide AuctionLaws.AuctionSound;
    RunSound(states, events, opening, i);
    RunPresent(states, events, opening, i);
    RunListed(states, events, opening, i);
    var c, e := states[i].core, states[i].Env(scale);
    var account := if transfer then receiver else from;
    DelegateIff(c, e, from, receiver, net, cpu, transfer);
    ListedRevotesAfter(c.book, account, net + cpu, e.Now(), scale);
  }

  /** In every such run undelegatebw commits exactly when the chain is activated, the delegation is large enough
      and the vesting rule allows it. */
  lemma {:induction false} RunUndelegates(states: seq<State>, events: seq<Event>, opening: nat, i: nat, scale: real,
                                          from: Name, receiver: Name, net: int, cpu: int)
    requires IsRun(states, events) && Inv(states[0], opening) && Listed(states[0].core.book) && i < |states|
    requires forall k | 0 <= k < i :: !StrayEvent(states[k], events[k])
    requires from != NO_NAME && receiver != NO_NAME
    ensures var c, e := states[i].core, states[i].Env(scale);
      var row := S.RowOf(c.ledger.delband, (from, receiver));
      && Sound(c.book)
      && (S.Undelegate(c, e, from, receiver, net, cpu).Commit? <==>
            && cpu >= 0 && net >= 0 && net + cpu > 0 && c.polls.stake >= MIN_PROPOSAL_STAKE
            && net <= row.net && cpu <= row.cpu
            && (from == B1 ==> S.Vested(Polls.StakeOf(c.book.voters, from) - net - cpu, e.Now())))
  {
    hide Token.Sound, Sound, LedgerSound, Polls.Sound, RamLaws.RamSound, GovernanceLaws.GovSound;
    hide GovernanceLaws.RewardsSound;
    hide IsRun, StrayEvent, Listed, S.Undelegate, S.Vested, RevotesAfter, AuctionLaws.AuctionSound;
    RunSound(states, events, opening, i);
    RunListed(states, events, opening, i);
    var c, e := states[i].core, states[i].Env(scale);
    UndelegateIff(c, e, from, receiver, net, cpu);
    ListedRevotesAfter(c.book, from, -net - cpu, e.Now(), scale);
  }

  /** The actions that are dispatched contain no such vote, and a chain without votes has nothing stored. */
  lemma {:induction false} DispatchedNeverStrays(s: State, ev: Event)
    ensures !ev.action.VoteProducer? ==> !StrayEvent(s, ev)
    ensures Dormant(s) ==> Listed(s.core.book)
  {
    hide Commits;
  }
}
