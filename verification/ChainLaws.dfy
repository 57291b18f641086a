/** Every action of the system contract keeps every invariant of the whole state at once, and no pot of
    tokens loses its cover unless the account of that pot sends tokens itself. */
module ChainLaws {
  import opened Base
  import opened Votes
  import V = Votes
  import VoteWeight
  import Polls
  import Token
  import S = Staking
  import opened StakingLaws
  import R = RamMarket
  import opened RamLaws
  import G = Governance
  import opened GovernanceLaws
  import opened AuctionLaws
  import opened Chain

  /** All invariants together; `opening` is the quote balance the RAM market opened with. */
  ghost predicate Inv(s: State, opening: nat) {
    && CoreSound(s.core, s.Now())
    && RamSound(s.ram, s.core.ledger.userres, opening)
    && GovSound(s.Governed(), s.core.polls.proposals, s.Now())
    && RewardsSound(s.core.book.producers, s.rewards)
    && AuctionSound(s.bids)
  }

  ghost function StakeMargin(s: State): int { Slack(s.core.token, s.core.ledger) }
  ghost function RamMargin(s: State): int { RamSlack(s.core.token, s.ram) }
  ghost function NodeMargin(s: State): int { NodeSlack(s.core.token, s.gnodes) }
  ghost function NameMargin(s: State): int { NamesSlack(s.core.token, s.bids) }

  /** No pot is worse covered, except by its own account's doing. */
  ghost predicate Covered(s: State, s': State, who: set<Name>) {
    && (STAKE !in who ==> StakeMargin(s) <= StakeMargin(s'))
    && (RAM !in who ==> RamMargin(s) <= RamMargin(s'))
    && (BPSTK !in who ==> NodeMargin(s) <= NodeMargin(s'))
    && (NAMES !in who ==> NameMargin(s) <= NameMargin(s'))
  }

  /** Only the accounts in `who` hold less of the core token. */
  ghost predicate Spends(t: Token.State, t': Token.State, who: set<Name>) {
    forall o: Name {:trigger S.Funds(t', o)} :: o !in who ==> S.Funds(t, o) <= S.Funds(t', o)
  }

  // ---------------------------------------------------------------- time

  lemma {:induction false} TimePasses(s: State, micros: nat, opening: nat)
    requires Inv(s, opening) && s.micros <= micros
    ensures Inv(At(s, micros), opening) && Ready(At(s, micros))
  {
    hide Token.Sound, Sound, LedgerSound, Polls.Sound, RamSound, RewardsSound, ProducersBacked, NodesPaid, AuctionSound;
    var s' := At(s, micros);
    assert s.Now() <= s'.Now();
    Polls.LaterSound(s.core.polls, s.core.book.voters, s.Now(), s'.Now());
    RamLive(s, opening);
  }

  lemma {:induction false} RamLive(s: State, opening: nat)
    requires Inv(s, opening)
    ensures R.Live(s.ram.market) && Sound(s.core.book)
  {
    hide Token.Sound, Sound, LedgerSound, Polls.Sound, Sum, RewardsSound, GovSound, AuctionSound;
  }

  // ---------------------------------------------------------------- frames

  /** Proposals keep their owner, subject and voting period. */
  ghost predicate SameProposals(ps: map<nat, Polls.Proposal>, ps': map<nat, Polls.Proposal>) {
    && ps'.Keys == ps.Keys
    && forall id <- ps :: ps'[id].owner == ps[id].owner && ps'[id].account == ps[id].account && ps'[id].voteEnd == ps[id].voteEnd
  }

  lemma {:induction false} RestakeKeepsProposals(t: Polls.Tables, voter: Name, w: int, now: nat)
    ensures SameProposals(t.proposals, Polls.Restake(t, voter, w, now).proposals)
  {
  }

  lemma {:induction false} VoteKeepsProposals(t: Polls.Tables, voters: Voters, voter: Name, id: nat, yea: bool,
                                              now: nat)
    requires voter in voters
    ensures var r := Polls.VoteProposal(t, voters, voter, id, yea, now);
      r.Commit? ==> SameProposals(t.proposals, r.value.proposals)
  {
    hide Polls.Sound;
  }

  lemma {:induction false} GovFrame(x: G.Effect, x': G.Effect, ps: map<nat, Polls.Proposal>,
                                    ps': map<nat, Polls.Proposal>, now: nat)
    requires GovSound(x, ps, now) && x'.gnodes == x.gnodes
    requires SameRegister(x.producers, x'.producers) && SameProposals(ps, ps')
    ensures GovSound(x', ps', now)
  {
    forall p | p in x'.producers ensures Backed(x'.producers, x'.gnodes, p) { assert Backed(x.producers, x.gnodes, p); }
  }

  lemma {:induction false} RewardsFrame(ps: Producers, ps': Producers, w: G.Rewards)
    requires RewardsSound(ps, w) && SameRegister(ps, ps')
    ensures RewardsSound(ps', w)
  {
    hide Sum;
    assert UnpaidColumn(ps') == UnpaidColumn(ps);
  }

  /** RAM quotas: the same rows count, up to empty rows. */
  ghost predicate SameQuotas(u: map<Name, S.Resources>, u': map<Name, S.Resources>) {
    && Sum(RamColumn(u')) == Sum(RamColumn(u))
    && ((forall r <- u :: 0 <= u[r].ram) ==> forall r <- u' :: 0 <= u'[r].ram)
  }

  lemma {:induction false} QuotaFrame(s: R.State, u: map<Name, S.Resources>, u': map<Name, S.Resources>, opening: nat)
    requires RamSound(s, u, opening) && SameQuotas(u, u')
    ensures RamSound(s, u', opening)
  {
    hide Sum, RamColumn;
  }

  lemma {:induction false} OneQuotaRow(u: map<Name, S.Resources>, u': map<Name, S.Resources>, r: Name)
    requires forall x :: x != r ==> (x in u <==> x in u')
    requires forall x <- u :: x != r ==> u[x] == u'[x]
    requires S.ResourcesOf(u', r).ram == S.ResourcesOf(u, r).ram
    ensures SameQuotas(u, u')
  {
    hide Sum;
    RamRow(u, u', r);
  }

  /** An action that changes only the staking tables, the votes and the tallies. */
  lemma {:induction false} CoreStep(s: State, c: S.Core, who: set<Name>, opening: nat)
    requires Inv(s, opening) && CoreSound(c, s.Now())
    requires SameRegister(s.core.book.producers, c.book.producers)
    requires SameProposals(s.core.polls.proposals, c.polls.proposals)
    requires SameQuotas(s.core.ledger.userres, c.ledger.userres)
    requires Spends(s.core.token, c.token, who + {STAKE})
    requires STAKE !in who ==> Slack(s.core.token, s.core.ledger) <= Slack(c.token, c.ledger)
    ensures Inv(s.(core := c), opening) && Covered(s, s.(core := c), who)
  {
    hide CoreSound, RamSound, GovSound, RewardsSound, AuctionSound, SameRegister, SameProposals, SameQuotas, Sum;
    hide Slack, S.Funds;
    var s' := s.(core := c);
    GovFrame(s.Governed(), s'.Governed(), s.core.polls.proposals, c.polls.proposals, s.Now());
    RewardsFrame(s.core.book.producers, c.book.producers, s.rewards);
    QuotaFrame(s.ram, s.core.ledger.userres, c.ledger.userres, opening);
    assert RAM !in who ==> S.Funds(s.core.token, RAM) <= S.Funds(c.token, RAM);
    assert BPSTK !in who ==> S.Funds(s.core.token, BPSTK) <= S.Funds(c.token, BPSTK);
    assert NAMES !in who ==> S.Funds(s.core.token, NAMES) <= S.Funds(c.token, NAMES);
  }

  lemma {:induction false} SameTables(c: S.Core)
    ensures SameRegister(c.book.producers, c.book.producers) && SameProposals(c.polls.proposals, c.polls.proposals)
    ensures SameQuotas(c.ledger.userres, c.ledger.userres)
    ensures forall t: Token.State, who: set<Name> :: Spends(t, t, who)
  {
    hide Sum;
  }

  // ---------------------------------------------------------------- staking

  lemma {:induction false} BookedKeepsQuotas(l: S.Ledger, payer: Name, receiver: Name, net: int, cpu: int,
                                             transfer: bool, now: nat)
    requires S.Booked(l, payer, receiver, net, cpu, transfer, now).Commit?
    ensures SameQuotas(l.userres, S.Booked(l, payer, receiver, net, cpu, transfer, now).value.0.userres)
  {
    hide SameQuotas, Sum;
    var from := if transfer then receiver else payer;
    MoveOneRow(l, from, receiver, net, cpu);
    var l1 := S.MoveBandwidth(l, from, receiver, net, cpu).value;
    OneQuotaRow(l.userres, l1.userres, receiver);
  }

  lemma {:induction false} ChangeBandwidthFrame(c: S.Core, e: S.Env, payer: Name, receiver: Name, net: int, cpu: int,
                                                transfer: bool)
    requires CoreSound(c, e.Now()) && payer != NO_NAME && receiver != NO_NAME
    requires S.ChangeBandwidth(c, e, payer, receiver, net, cpu, transfer).Commit?
    ensures var c' := S.ChangeBandwidth(c, e, payer, receiver, net, cpu, transfer).value;
      SameQuotas(c.ledger.userres, c'.ledger.userres) && Spends(c.token, c'.token, {payer})
  {
    hide S.ChangeBandwidth, S.Booked, SameQuotas, Sum, S.Pay, S.Funds, Token.Sound, S.StakeVotes, Sound, LedgerSound;
    hide Polls.Sound;
    BookedIs(c, e, payer, receiver, net, cpu, transfer);
    BookedKeepsQuotas(c.ledger, payer, receiver, net, cpu, transfer, e.Now());
    PayEffect(c.token, e, payer, STAKE, S.Booked(c.ledger, payer, receiver, net, cpu, transfer, e.Now()).value.1);
  }

  lemma {:induction false} ReweighedFrame(c: S.Core, account: Name, before: int, now: nat)
    ensures var c' := S.Reweighed(c, account, before, now);
      && c'.token == c.token && c'.ledger == c.ledger && c'.book == c.book && c'.threshold == c.threshold
      && SameProposals(c.polls.proposals, c'.polls.proposals)
  {
    hide SameProposals, Polls.Restake;
    RestakeKeepsProposals(c.polls, account, VoteWeight.Weight(Polls.StakeOf(c.book.voters, account)) - before, now);
  }

  lemma {:induction false} DelegateStep(s: State, scale: real, from: Name, receiver: Name, net: int, cpu: int,
                                        transfer: bool, opening: nat)
    requires Inv(s, opening) && from != NO_NAME && receiver != NO_NAME
    ensures var r := S.Delegate(s.core, s.Env(scale), from, receiver, net, cpu, transfer);
      r.Commit? ==> Inv(s.(core := r.value), opening) && Covered(s, s.(core := r.value), {from})
  {
    hide CoreSound, RamSound, GovSound, RewardsSound, AuctionSound, SameRegister, SameProposals, SameQuotas, Spends;
    hide Slack;
    hide S.ChangeBandwidth, S.Reweighed, Sound;
    var c, e := s.core, s.Env(scale);
    RamLive(s, opening);
    if S.Delegate(c, e, from, receiver, net, cpu, transfer).Commit? {
      var c1 := S.ChangeBandwidth(c, e, from, receiver, net, cpu, transfer).value;
      var account := if transfer then receiver else from;
      ChangeBandwidthFrame(c, e, from, receiver, net, cpu, transfer);
      ChangeKeepsPolls(c, e, from, receiver, net, cpu, transfer);
      ReweighedFrame(c1, account, VoteWeight.Weight(Polls.StakeOf(c.book.voters, account)), e.Now());
      DelegateSound(c, e, from, receiver, net, cpu, transfer);
      SpendsMore(c.token, c1.token, {from}, {from} + {STAKE});
      CoreStep(s, S.Delegate(c, e, from, receiver, net, cpu, transfer).value, {from}, opening);
    }
  }

  lemma {:induction false} ChangeKeepsPolls(c: S.Core, e: S.Env, payer: Name, receiver: Name, net: int, cpu: int,
                                            transfer: bool)
    requires Sound(c.book) && payer != NO_NAME && receiver != NO_NAME
    requires S.ChangeBandwidth(c, e, payer, receiver, net, cpu, transfer).Commit?
    ensures S.ChangeBandwidth(c, e, payer, receiver, net, cpu, transfer).value.polls == c.polls
  {
    hide S.Booked, S.StakeVotes, S.Pay, Sound;
  }

  lemma {:induction false} SpendsMore(t: Token.State, t': Token.State, who: set<Name>, more: set<Name>)
    requires Spends(t, t', who) && who <= more
    ensures Spends(t, t', more)
  {
  }

  lemma {:induction false} UndelegateStep(s: State, scale: real, from: Name, receiver: Name, net: int, cpu: int,
                                          opening: nat)
    requires Inv(s, opening) && from != NO_NAME && receiver != NO_NAME
    ensures var r := S.Undelegate(s.core, s.Env(scale), from, receiver, net, cpu);
      r.Commit? ==> Inv(s.(core := r.value), opening) && Covered(s, s.(core := r.value), {from})
  {
    hide CoreSound, RamSound, GovSound, RewardsSound, AuctionSound, SameRegister, SameProposals, SameQuotas, Spends;
    hide Slack;
    hide S.ChangeBandwidth, S.Reweighed, Sound;
    var c, e := s.core, s.Env(scale);
    RamLive(s, opening);
    if S.Undelegate(c, e, from, receiver, net, cpu).Commit? {
      var c1 := S.ChangeBandwidth(c, e, from, receiver, -net, -cpu, false).value;
      ChangeBandwidthFrame(c, e, from, receiver, -net, -cpu, false);
      ChangeKeepsPolls(c, e, from, receiver, -net, -cpu, false);
      ReweighedFrame(c1, from, VoteWeight.Weight(Polls.StakeOf(c.book.voters, from)), e.Now());
      UndelegateSound(c, e, from, receiver, net, cpu);
      SpendsMore(c.token, c1.token, {from}, {from} + {STAKE});
      CoreStep(s, S.Undelegate(c, e, from, receiver, net, cpu).value, {from}, opening);
    }
  }

  lemma {:induction false} RefundStep(s: State, scale: real, owner: Name, opening: nat)
    requires Inv(s, opening)
    ensures var r := S.Refund(s.core, s.Env(scale), owner);
      r.Commit? ==> Inv(s.(core := r.value), opening) && Covered(s, s.(core := r.value), {owner})
  {
    hide RamSound, GovSound, RewardsSound, AuctionSound, SameRegister, SameProposals, SameQuotas, Slack, S.Pay, S.Funds;
    hide Sound, LedgerSound, Polls.Sound, Token.Sound;
    var c, e := s.core, s.Env(scale);
    var r := S.Refund(c, e, owner);
    if r.Commit? {
      RefundSound(c, e, owner);
      PayEffect(c.token, e, STAKE, owner, c.ledger.refunds[owner].net + c.ledger.refunds[owner].cpu);
      SameTables(c);
      CoreStep(s, r.value, {owner}, opening);
    }
  }

  // ---------------------------------------------------------------- votes

  /** Stakes decide what the ledger and the tallies say about voters. */
  lemma {:induction false} BookStep(s: State, b: Book, threshold: nat, who: set<Name>, opening: nat)
    requires Inv(s, opening) && Sound(b) && SameRegister(s.core.book.producers, b.producers)
    requires forall f: Name {:trigger Polls.StakeOf(b.voters, f)} :: Polls.StakeOf(b.voters, f) == Polls.StakeOf(s.core.book.voters, f)
    requires Polls.Sound(s.core.polls, b.voters, s.Now())
    ensures var s' := s.(core := s.core.(book := b, threshold := threshold)); Inv(s', opening) && Covered(s, s', who)
  {
    hide RamSound, GovSound, RewardsSound, AuctionSound, SameRegister, SameProposals, SameQuotas, S.Funds;
    hide Sound, Polls.Sound, Token.Sound, RowsSound, ReceiverSound, Sum, Spends;
    var c := s.core.(book := b, threshold := threshold);
    forall f: Name ensures GiverSound(c.ledger.delband, b.voters, f) {
      assert GiverSound(s.core.ledger.delband, s.core.book.voters, f);
    }
    SameTables(s.core);
    CoreStep(s, c, who, opening);
  }

  lemma {:induction false} VoteProducerStep(s: State, scale: real, voter: Name, proxy: Name, producers: seq<Name>,
                                            opening: nat)
    requires Inv(s, opening) && Ready(s)
    ensures var r := S.VoteProducer(s.core, s.Env(scale), voter, proxy, producers);
      r.Commit? ==> Inv(s.(core := r.value), opening) && Covered(s, s.(core := r.value), {voter})
  {
    hide RamSound, GovSound, RewardsSound, AuctionSound, UpdateVotes, LedgerSound, SameRegister, Covered, Token.Sound;
    hide Sound, Polls.Sound;
    var r := S.VoteProducer(s.core, s.Env(scale), voter, proxy, producers);
    if r.Commit? {
      var b, b' := s.core.book, r.value.book;
      UpdateVotesSound(b, voter, proxy, producers, true, scale);
      UpdateVotesStakes(b, voter, proxy, producers, true, scale);
      Polls.SameStakesSound(s.core.polls, b.voters, b'.voters, s.Now());
      BookStep(s, b', r.value.threshold, {voter}, opening);
    }
  }

  lemma {:induction false} RegProxyStakes(b: Book, v: Name, isProxy: bool, scale: real)
    requires Sound(b) && v != NO_NAME && V.RegProxy(b, v, isProxy, scale).Commit?
    ensures var b' := V.RegProxy(b, v, isProxy, scale).value;
      && SameRegister(b.producers, b'.producers)
      && if v in b.voters then SameStakes(b.voters, b'.voters) else b'.voters == b.voters[v := NEW_VOTER.(isProxy := isProxy)]
  {
    hide Sound, Walk, Acyclic;
    if v in b.voters { FlagSound(b, v, isProxy); }
  }

  lemma {:induction false} RegProxyStep(s: State, scale: real, voter: Name, isProxy: bool, opening: nat)
    requires Inv(s, opening) && Ready(s) && voter != NO_NAME
    ensures var r := V.RegProxy(s.core.book, voter, isProxy, scale);
      r.Commit? ==> Inv(s.WithBook(r.value), opening) && Covered(s, s.WithBook(r.value), {voter})
  {
    hide RamSound, GovSound, RewardsSound, AuctionSound, V.RegProxy, LedgerSound, SameRegister, Covered, Token.Sound;
    hide Sound, Polls.Sound;
    hide Polls.Restake, VoteWeight.Weight;
    var b := s.core.book;
    var r := V.RegProxy(b, voter, isProxy, scale);
    if r.Commit? {
      RegProxySound(b, voter, isProxy, scale);
      RegProxyStakes(b, voter, isProxy, scale);
      if voter in b.voters {
        Polls.SameStakesSound(s.core.polls, b.voters, r.value.voters, s.Now());
      } else {
        Polls.RestakeSound(s.core.polls, b.voters, voter, NEW_VOTER.(isProxy := isProxy), s.Now());
        NoRestake(s.core.polls, voter, s.Now());
      }
      BookStep(s, r.value, s.core.threshold, {voter}, opening);
    }
  }

  lemma {:induction false} NoRestake(t: Polls.Tables, voter: Name, now: nat)
    ensures Polls.Restake(t, voter, 0, now) == t
  {
  }

  lemma {:induction false} VoteProposalStep(s: State, voter: Name, id: nat, yea: bool, opening: nat)
    requires Inv(s, opening) && voter in s.core.book.voters
    ensures var r := Polls.VoteProposal(s.core.polls, s.core.book.voters, voter, id, yea, s.Now());
      r.Commit? ==> Inv(s.WithPolls(r.value), opening) && Covered(s, s.WithPolls(r.value), {voter})
  {
    hide RamSound, GovSound, RewardsSound, AuctionSound, LedgerSound, SameRegister, SameProposals, SameQuotas;
    hide Covered, Spends;
    hide Token.Sound, Sound, Polls.Sound, Polls.VoteProposal;
    var r := Polls.VoteProposal(s.core.polls, s.core.book.voters, voter, id, yea, s.Now());
    if r.Commit? {
      Polls.VoteProposalSound(s.core.polls, s.core.book.voters, voter, id, yea, s.Now());
      VoteKeepsProposals(s.core.polls, s.core.book.voters, voter, id, yea, s.Now());
      SameTables(s.core);
      CoreStep(s, s.core.(polls := r.value), {voter}, opening);
    }
  }
}
