/** The meaning of producers' votes over whole runs. */
module ChainMeaning {
  import opened Base
  import opened Votes
  import V = Votes
  import opened VoteSums
  import opened VoteMeaning
  import Token
  import S = Staking
  import opened StakingLaws
  import opened Chain
  import opened ChainLaws
  import opened ChainRuns
  import opened ChainVotes

  lemma {:induction false} ApplyFresh(s: State, scale: real, auths: set<Name>, a: Action)
    requires Ready(s) && Legal(s, a) && Fresh(s.core.book.voters, scale, {})
    ensures var r := Apply(s, scale, auths, a); r.Commit? ==> Fresh(r.value.core.book.voters, scale, {})
  {
    hide Legal, Apply, S.StakeVotes, UpdateVotes, V.RegProxy, Sound, SameVotes, Fresh;
    var r := Apply(s, scale, auths, a);
    if r.Commit? {
      if a.Delegate? || a.Undelegate? {
        StakingBook(s, scale, auths, a);
        StakeFresh(s.core.book, s.Env(scale), Charged(a).0, Charged(a).1);
      } else if a.VoteProducer? {
        VoteBookIs(s, scale, auths, a);
        FreshBut(s.core.book.voters, scale, {a.voter});
        VoteFresh(s.core.book, a.voter, a.proxy, a.producers, true, scale);
      } else if a.RegProxy? {
        ProxyBookIs(s, scale, auths, a);
        FlagFresh(s.core.book, a.voter, a.isProxy, scale);
      } else {
        ApplyVotes(s, scale, auths, a);
      }
    }
  }

  lemma {:induction false} FreshBut(voters: Voters, scale: real, stale: set<Name>)
    requires Fresh(voters, scale, {})
    ensures Fresh(voters, scale, stale)
  {
  }

  lemma {:induction false} NextFresh(s: State, ev: Event, s': State, opening: nat)
    requires Inv(s, opening) && Next(s, ev, s') && Fresh(s.core.book.voters, ev.scale, {})
    ensures Fresh(s'.core.book.voters, ev.scale, {})
  {
    hide Inv, Legal, Ready, Apply, Fresh;
    TimePasses(s, ev.micros, opening);
    ApplyFresh(At(s, ev.micros), ev.scale, ev.auths, ev.action);
  }

  /** As long as the time factor stays, every weight last cast stays the present one, whatever propagations drop. */
  lemma {:induction false} RunFresh(states: seq<State>, events: seq<Event>, opening: nat, scale: real, i: nat)
    requires IsRun(states, events) && Inv(states[0], opening) && i < |states| && Fresh(states[0].core.book.voters, scale, {})
    requires forall k | 0 <= k < i :: events[k].scale == scale
    ensures Fresh(states[i].core.book.voters, scale, {})
    decreases i
  {
    hide Inv, Next, Fresh;
    if i > 0 {
      RunFresh(states, events, opening, scale, i - 1);
      RunSound(states, events, opening, i - 1);
      assert Next(states[i - 1], events[i - 1], states[i]) && events[i - 1].scale == scale;
      NextFresh(states[i - 1], events[i - 1], states[i], opening);
    }
  }

  /** In every run at one time factor in which no propagation drops a change that would have reached anybody, a producer's
      votes are in every state exactly the stakes, at that factor, of the accounts whose chain of registered proxies ends
      at a ballot naming it. */
  lemma {:induction false} RunVotesMeaning(states: seq<State>, events: seq<Event>, opening: nat, scale: real, i: nat,
                                           p: Name)
    requires IsRun(states, events) && Inv(states[0], opening) && i < |states|
    requires Clean(states[0].core.book) && Fresh(states[0].core.book.voters, scale, {})
    requires forall k | 0 <= k < i :: events[k].scale == scale && EventLossless(states[k], events[k])
    ensures var b := states[i].core.book;
      Sound(b) && (p in b.producers ==> b.producers[p].votes == RSum(BackingColumn(b, p, scale)))
  {
    hide Inv, IsRun, Fresh, EventLossless, BackingColumn, RSum, Exact, Solvent, Listed, Acyclic;
    RunExact(states, events, opening, i);
    RunFresh(states, events, opening, scale, i);
    if p in states[i].core.book.producers { VotesMeaning(states[i].core.book, p, scale); }
  }

  /** From the start of the chain, where nobody has voted. */
  lemma {:induction false} ChainVotesMeaning(token: Token.State, supply: nat, accounts: set<Name>, micros: nat,
                                             states: seq<State>, events: seq<Event>, scale: real, i: nat, p: Name)
    requires Token.Sound(token) && CoreLive(token)
    requires IsRun(states, events) && states[0] == Genesis(token, supply, accounts, micros) && i < |states|
    requires forall k | 0 <= k < i :: events[k].scale == scale && EventLossless(states[k], events[k])
    ensures var b := states[i].core.book;
      Sound(b) && (p in b.producers ==> b.producers[p].votes == RSum(BackingColumn(b, p, scale)))
  {
    hide Token.Sound, CoreLive, Inv, Clean, EventLossless, IsRun, Dormant, RSum, BackingColumn, Sound;
    GenesisInv(token, supply, accounts, micros);
    GenesisVotes(token, supply, accounts, micros);
    RunVotesMeaning(states, events, supply / 1000, scale, i, p);
  }
}
