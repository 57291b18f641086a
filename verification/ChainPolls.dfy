/** Proposals over whole runs: whose vote counts on which side, what an execution decides, and what the events say
    about every row. */
module ChainPolls {
  import opened Base
  import opened Votes
  import VoteWeight
  import Polls
  import Token
  import S = Staking
  import opened StakingLaws
  import G = Governance
  import opened GovernanceLaws
  import opened Chain
  import opened ChainLaws
  import opened ChainRuns

  // ---------------------------------------------------------------- one vote

  /** What is stored of an account's vote on a proposal: a side, and the second from which it has been on it. */
  datatype Side = Nothing | Voted(yea: bool, since: nat)

  function Stored(t: Polls.Tables, id: nat, v: Name): Side {
    if (id, v) in t.votes then Voted(t.votes[(id, v)].yea, t.votes[(id, v)].time) else Nothing
  }

  /** A vote at second `now` after an earlier one: the side is the new one, the time that of the last change. */
  function Recorded(before: Side, yea: bool, now: nat): Side {
    Voted(yea, if before.Voted? && before.yea == yea then before.since else now)
  }

  /** voteproposal commits exactly on an existing proposal before its voting ends; it records the side asked for,
      and touches no other vote. */
  lemma {:induction false} VoteRecords(t: Polls.Tables, voters: Voters, voter: Name, id: nat, yea: bool, now: nat)
    requires voter in voters
    ensures var r := Polls.VoteProposal(t, voters, voter, id, yea, now);
      && (r.Commit? <==> id in t.proposals && now < t.proposals[id].voteEnd)
      && (r.Commit? ==>
            && Stored(r.value, id, voter) == Recorded(Stored(t, id, voter), yea, now)
            && r.value.num == t.num && r.value.stake == t.stake
            && forall j: nat, v: Name {:trigger Stored(r.value, j, v)} ::
                 (j, v) != (id, voter) ==> Stored(r.value, j, v) == Stored(t, j, v))
  {
    hide VoteWeight.Weight;
  }

  /** The event is a committed vote of `v` on proposal `id`. */
  ghost predicate Casts(s: State, ev: Event, id: nat, v: Name) {
    ev.action.VoteProposal? && ev.action.id == id && ev.action.voter == v && Commits(s, ev)
  }

  lemma {:induction false} RestakeStored(t: Polls.Tables, voter: Name, w: int, now: nat)
    ensures Polls.Restake(t, voter, w, now).votes == t.votes
  {
  }

  /** Every action but a vote leaves all votes alone. */
  lemma {:induction false} OthersKeepVotes(s: State, scale: real, auths: set<Name>, a: Action)
    requires Ready(s) && Legal(s, a) && !a.VoteProposal?
    ensures var r := Apply(s, scale, auths, a); r.Commit? ==> r.value.core.polls.votes == s.core.polls.votes
  {
    hide Ready, Legal, Apply;
    if ChainRuns.Staking(a) || a.NewProposal? || a.ExecProposal? {
      TallyActionsKeepVotes(s, scale, auths, a);
    } else {
      OthersKeepPolls(s, scale, auths, a);
    }
  }

  lemma {:induction false} TallyActionsKeepVotes(s: State, scale: real, auths: set<Name>, a: Action)
    requires Ready(s) && Legal(s, a) && (ChainRuns.Staking(a) || a.NewProposal? || a.ExecProposal?)
    ensures var r := Apply(s, scale, auths, a); r.Commit? ==> r.value.core.polls.votes == s.core.polls.votes
  {
    hide Sound, S.ChangeBandwidth, Polls.Restake, G.IsAvailable, G.Carry, G.Passes, G.ProducersSize, S.Pay, VoteWeight.Weight;
    var r, c, e := Apply(s, scale, auths, a), s.core, s.Env(scale);
    if r.Commit? {
      match a {
        case Delegate(from, receiver, net, cpu, transfer) =>
          var account := if transfer then receiver else from;
          var c1 := S.ChangeBandwidth(c, e, from, receiver, net, cpu, transfer).value;
          ChangeKeepsPolls(c, e, from, receiver, net, cpu, transfer);
          RestakeStored(c1.polls, account, VoteWeight.Weight(Polls.StakeOf(c1.book.voters, account))
                                           - VoteWeight.Weight(Polls.StakeOf(c.book.voters, account)), e.Now());
        case Undelegate(from, receiver, net, cpu) =>
          var c1 := S.ChangeBandwidth(c, e, from, receiver, -net, -cpu, false).value;
          ChangeKeepsPolls(c, e, from, receiver, -net, -cpu, false);
          RestakeStored(c1.polls, from, VoteWeight.Weight(Polls.StakeOf(c1.book.voters, from))
                                        - VoteWeight.Weight(Polls.StakeOf(c.book.voters, from)), e.Now());
        case _ =>
      }
    }
  }

  lemma {:induction false} NextStored(s: State, ev: Event, s': State, opening: nat, id: nat, v: Name)
    requires Inv(s, opening) && Next(s, ev, s')
    ensures Stored(s'.core.polls, id, v) ==
      if Casts(s, ev, id, v) then Recorded(Stored(s.core.polls, id, v), ev.action.yea, Second(ev))
      else Stored(s.core.polls, id, v)
  {
    hide Inv, Legal, Ready, Polls.VoteProposal;
    TimePasses(s, ev.micros, opening);
    var s1 := At(s, ev.micros);
    if Commits(s, ev) {
      if ev.action.VoteProposal? {
        HasRow(s1, ev.action);
        VoteRecords(s1.core.polls, s1.core.book.voters, ev.action.voter, ev.action.id, ev.action.yea, s1.Now());
      } else {
        hide Apply;
        OthersKeepVotes(s1, ev.scale, ev.auths, ev.action);
      }
    }
  }

  lemma {:induction false} HasRow(s: State, a: Action)
    requires Legal(s, a) && a.VoteProposal?
    ensures a.voter in s.core.book.voters
  {
  }

  // ---------------------------------------------------------------- votes over runs

  /** What the events say about an account's vote on a proposal: the side of the last committed vote, if any. */
  ghost function Cast(states: seq<State>, events: seq<Event>, id: nat, v: Name, i: nat): Side
    requires i <= |events| && i < |states|
  {
    if i == 0 then Stored(states[0].core.polls, id, v)
    else if Casts(states[i - 1], events[i - 1], id, v)
    then Recorded(Cast(states, events, id, v, i - 1), events[i - 1].action.yea, Second(events[i - 1]))
    else Cast(states, events, id, v, i - 1)
  }

  /** In every state of every run, what is stored of a vote is what the events say. */
  lemma {:induction false} RunVotes(states: seq<State>, events: seq<Event>, opening: nat, i: nat, id: nat, v: Name)
    requires IsRun(states, events) && Inv(states[0], opening) && i < |states|
    ensures Stored(states[i].core.polls, id, v) == Cast(states, events, id, v, i)
    decreases i
  {
    hide Inv, Next, Casts, Stored;
    if i > 0 {
      RunVotes(states, events, opening, i - 1, id, v);
      RunSound(states, events, opening, i - 1);
      assert Next(states[i - 1], events[i - 1], states[i]);
      NextStored(states[i - 1], events[i - 1], states[i], opening, id, v);
    }
  }

  /** The side stored is the one asked for by the last committed vote. */
  lemma {:induction false} LastVoteCounts(states: seq<State>, events: seq<Event>, opening: nat, k: nat, i: nat,
                                          id: nat, v: Name)
    requires IsRun(states, events) && Inv(states[0], opening) && k < i < |states| && Casts(states[k], events[k], id, v)
    requires forall j | k < j < i :: !Casts(states[j], events[j], id, v)
    ensures var t := states[i].core.polls; (id, v) in t.votes && t.votes[(id, v)].yea == events[k].action.yea
    decreases i
  {
    hide Inv, Next, Casts;
    RunSound(states, events, opening, i - 1);
    assert Next(states[i - 1], events[i - 1], states[i]);
    NextStored(states[i - 1], events[i - 1], states[i], opening, id, v);
    if k < i - 1 {
      assert !Casts(states[i - 1], events[i - 1], id, v);
      LastVoteCounts(states, events, opening, k, i - 1, id, v);
    }
  }

  /** Nothing is stored of an account that has not voted. */
  lemma {:induction false} NoVoteUncast(states: seq<State>, events: seq<Event>, opening: nat, i: nat, id: nat, v: Name)
    requires IsRun(states, events) && Inv(states[0], opening) && i < |states| && (id, v) !in states[0].core.polls.votes
    requires forall j | 0 <= j < i :: !Casts(states[j], events[j], id, v)
    ensures (id, v) !in states[i].core.polls.votes
    decreases i
  {
    hide Inv, Next, Casts;
    if i > 0 {
      NoVoteUncast(states, events, opening, i - 1, id, v);
      RunSound(states, events, opening, i - 1);
      assert Next(states[i - 1], events[i - 1], states[i]) && !Casts(states[i - 1], events[i - 1], id, v);
      NextStored(states[i - 1], events[i - 1], states[i], opening, id, v);
    }
  }

  /** The present weight of every voter whose last committed vote on proposal `id` was `yea`. */
  ghost function CastColumn(states: seq<State>, events: seq<Event>, i: nat, id: nat, yea: bool): map<Name, int>
    requires i <= |events| && i < |states|
  {
    var voters := states[i].core.book.voters;
    map v | v in voters ::
      var side := Cast(states, events, id, v, i);
      if side.Voted? && side.yea == yea then VoteWeight.Weight(voters[v].staked) else 0
  }

  /** In every reachable state the tallies of an open proposal are the present weights of the accounts whose last
      committed vote was yes, and no: recounted from the events, not from what is stored. */
  lemma {:induction false} RunTally(states: seq<State>, events: seq<Event>, opening: nat, i: nat, id: nat)
    requires IsRun(states, events) && Inv(states[0], opening) && i < |states|
    requires id in states[i].core.polls.proposals && states[i].Now() < states[i].core.polls.proposals[id].voteEnd
    ensures states[i].core.polls.proposals[id].yeas == Sum(CastColumn(states, events, i, id, true))
    ensures states[i].core.polls.proposals[id].nays == Sum(CastColumn(states, events, i, id, false))
  {
    hide Inv, Next, Cast, Sum, VoteWeight.Weight;
    var t, voters := states[i].core.polls, states[i].core.book.voters;
    forall v | v in voters ensures Stored(t, id, v) == Cast(states, events, id, v, i) {
      RunVotes(states, events, opening, i, id, v);
    }
    RunTurnout(states, events, opening, i, id);
    assert Polls.TallyColumn(t, voters, id, true) == CastColumn(states, events, i, id, true);
    assert Polls.TallyColumn(t, voters, id, false) == CastColumn(states, events, i, id, false);
  }

  // ---------------------------------------------------------------- tallies after the vote

  /** The tallies of proposals whose voting is over stay. */
  ghost predicate Frozen(ps: map<nat, Polls.Proposal>, ps': map<nat, Polls.Proposal>, now: nat) {
    forall id <- ps :: ps[id].voteEnd <= now ==> id in ps' && ps'[id].yeas == ps[id].yeas && ps'[id].nays == ps[id].nays
  }

  lemma {:induction false} SameFrozen(ps: map<nat, Polls.Proposal>, now: nat)
    ensures Frozen(ps, ps, now)
  {
  }

  lemma {:induction false} RestakeFrozen(t: Polls.Tables, voter: Name, w: int, now: nat)
    ensures Frozen(t.proposals, Polls.Restake(t, voter, w, now).proposals, now)
  {
  }

  lemma {:induction false} VoteFrozen(t: Polls.Tables, voters: Voters, voter: Name, id: nat, yea: bool, now: nat)
    requires voter in voters
    ensures var r := Polls.VoteProposal(t, voters, voter, id, yea, now);
      r.Commit? ==> Frozen(t.proposals, r.value.proposals, now)
  {
    hide VoteWeight.Weight;
  }

  lemma {:induction false} StakingFrozen(s: State, scale: real, auths: set<Name>, a: Action)
    requires Ready(s) && Legal(s, a) && (a.Delegate? || a.Undelegate?)
    ensures var r := Apply(s, scale, auths, a);
      r.Commit? ==> Frozen(s.core.polls.proposals, r.value.core.polls.proposals, s.Now())
  {
    hide Sound, S.ChangeBandwidth, Polls.Restake, VoteWeight.Weight, Frozen;
    var r, c, e := Apply(s, scale, auths, a), s.core, s.Env(scale);
    if r.Commit? {
      match a {
        case Delegate(from, receiver, net, cpu, transfer) =>
          var account := if transfer then receiver else from;
          var c1 := S.ChangeBandwidth(c, e, from, receiver, net, cpu, transfer).value;
          ChangeKeepsPolls(c, e, from, receiver, net, cpu, transfer);
          RestakeFrozen(c1.polls, account, VoteWeight.Weight(Polls.StakeOf(c1.book.voters, account))
                                           - VoteWeight.Weight(Polls.StakeOf(c.book.voters, account)), e.Now());
        case Undelegate(from, receiver, net, cpu) =>
          var c1 := S.ChangeBandwidth(c, e, from, receiver, -net, -cpu, false).value;
          ChangeKeepsPolls(c, e, from, receiver, -net, -cpu, false);
          RestakeFrozen(c1.polls, from, VoteWeight.Weight(Polls.StakeOf(c1.book.voters, from))
                                        - VoteWeight.Weight(Polls.StakeOf(c.book.voters, from)), e.Now());
      }
    }
  }

  lemma {:induction false} RowsFrozen(s: State, scale: real, auths: set<Name>, a: Action)
    requires Ready(s) && Legal(s, a) && (a.NewProposal? || a.ExecProposal?)
    ensures var r := Apply(s, scale, auths, a);
      r.Commit? ==> Frozen(s.core.polls.proposals, r.value.core.polls.proposals, s.Now())
  {
    hide Ready, G.Carry, G.Passes, G.ProducersSize, S.Pay, G.IsAvailable;
    if a.NewProposal? { FreshId(s.core.polls.proposals, a.id); }
  }

  lemma {:induction false} FreshId(ps: map<nat, Polls.Proposal>, id: nat)
    requires G.IsAvailable(ps, id)
    ensures id !in ps
  {
  }

  lemma {:induction false} ApplyFrozen(s: State, scale: real, auths: set<Name>, a: Action)
    requires Ready(s) && Legal(s, a)
    ensures var r := Apply(s, scale, auths, a);
      r.Commit? ==> Frozen(s.core.polls.proposals, r.value.core.polls.proposals, s.Now())
  {
    hide Ready, Legal, Frozen, Polls.VoteProposal;
    SameFrozen(s.core.polls.proposals, s.Now());
    if a.VoteProposal? {
      HasRow(s, a);
      VoteFrozen(s.core.polls, s.core.book.voters, a.voter, a.id, a.yea, s.Now());
    } else {
      hide Apply;
      if a.Delegate? || a.Undelegate? {
        StakingFrozen(s, scale, auths, a);
      } else if a.NewProposal? || a.ExecProposal? {
        RowsFrozen(s, scale, auths, a);
      } else {
        OthersKeepPolls(s, scale, auths, a);
      }
    }
  }

  lemma {:induction false} NextFrozen(s: State, ev: Event, s': State, opening: nat, id: nat)
    requires Inv(s, opening) && Next(s, ev, s') && id in s.core.polls.proposals
    requires s.core.polls.proposals[id].voteEnd <= Second(ev)
    ensures id in s'.core.polls.proposals
      && s'.core.polls.proposals[id].yeas == s.core.polls.proposals[id].yeas
      && s'.core.polls.proposals[id].nays == s.core.polls.proposals[id].nays
  {
    hide Inv, Legal, Ready, Apply;
    TimePasses(s, ev.micros, opening);
    ApplyFrozen(At(s, ev.micros), ev.scale, ev.auths, ev.action);
  }

  /** Once its voting is over, nothing in any run moves the tallies of a proposal. */
  lemma {:induction false} RunFrozen(states: seq<State>, events: seq<Event>, opening: nat, i: nat, j: nat, id: nat)
    requires IsRun(states, events) && Inv(states[0], opening) && i <= j < |states|
    requires id in states[i].core.polls.proposals
    requires forall k | i <= k < j :: states[i].core.polls.proposals[id].voteEnd <= Second(events[k])
    ensures id in states[j].core.polls.proposals
    ensures states[j].core.polls.proposals[id].yeas == states[i].core.polls.proposals[id].yeas
    ensures states[j].core.polls.proposals[id].nays == states[i].core.polls.proposals[id].nays
    decreases j - i
  {
    hide Inv, Next, Lasting;
    if i < j {
      RunFrozen(states, events, opening, i, j - 1, id);
      RunLasting(states, events, opening, i, j - 1);
      SameTimes(states[i].core.polls.proposals, states[j - 1].core.polls.proposals, id);
      RunSound(states, events, opening, j - 1);
      assert Next(states[j - 1], events[j - 1], states[j]);
      assert states[i].core.polls.proposals[id].voteEnd <= Second(events[j - 1]);
      NextFrozen(states[j - 1], events[j - 1], states[j], opening, id);
    }
  }

  /** So the lead of a proposal is decided by its last state before the end of the vote: by the accounts' last
      committed votes then, at their weights then. */
  lemma {:induction false} DecidedAtClose(states: seq<State>, events: seq<Event>, opening: nat, i: nat, j: nat, id: nat)
    requires IsRun(states, events) && Inv(states[0], opening) && i <= j < |states|
    requires id in states[i].core.polls.proposals && states[i].Now() < states[i].core.polls.proposals[id].voteEnd
    requires forall k | i <= k < j :: states[i].core.polls.proposals[id].voteEnd <= Second(events[k])
    ensures id in states[j].core.polls.proposals
    ensures states[j].core.polls.proposals[id].yeas - states[j].core.polls.proposals[id].nays
      == Sum(CastColumn(states, events, i, id, true)) - Sum(CastColumn(states, events, i, id, false))
  {
    hide Inv, Next, CastColumn, Sum;
    RunTally(states, events, opening, i, id);
    RunFrozen(states, events, opening, i, j, id);
  }

  // ---------------------------------------------------------------- the life of a proposal

  /** newproposal commits exactly when a governance node that can pay the fee proposes itself, anybody for removal, or
      a known consensus; the row is what was asked for, with two hours to vote and three days more to execute. */
  lemma {:induction false} ProposeIff(t: Token.State, gs: G.GNodes, polls: Polls.Tables, e: S.Env, owner: Name,
                                      account: Name, height: nat, kind: int, consensus: int, id: nat)
    requires Token.Sound(t) && CoreLive(t) && PROP in e.accounts && G.IsAvailable(polls.proposals, id)
    ensures var r := G.NewProposal(t, gs, polls, e, owner, account, height, kind, consensus, id);
      && (r.Commit? <==> && owner in gs && owner != PROP && 15000 <= S.Funds(t, owner)
                         && (kind == 1 ==> owner == account) && (kind == 3 ==> 0 <= consensus <= 2))
      && (r.Commit? ==>
            && r.value.1 == polls.(proposals := r.value.1.proposals, num := polls.num + 1)
            && id !in polls.proposals && r.value.1.proposals.Keys == polls.proposals.Keys + {id}
            && (forall k <- polls.proposals :: r.value.1.proposals[k] == polls.proposals[k])
            && AsProposed(r.value.1.proposals[id], e.Now(), owner, account, height, kind, consensus))
  {
    hide S.Pay, Token.Sound, S.Funds;
    PayEffect(t, e, owner, PROP, G.PROPOSAL_FEE);
    FreshId(polls.proposals, id);
  }

  /** A new proposal, made at second `now`. */
  predicate AsProposed(p: Polls.Proposal, now: nat, owner: Name, account: Name, height: nat, kind: int, consensus: int) {
    && p.owner == owner && p.account == account && p.kind == kind && p.consensus == consensus && p.blockHeight == height
    && p.start == now && p.voteEnd == now + 7200 && p.execEnd == now + 7200 + 259200
    && p.yeas == p.nays == 0 && !p.executed && !p.satisfied && p.execTime == p.staked == 0
  }

  lemma {:induction false} ProposedRow(s: State, ev: Event, id: nat)
    ensures Proposes(s, ev, id) ==>
      var ps, a := After(s, ev).core.polls.proposals, ev.action;
      id in ps && AsProposed(ps[id], Second(ev), a.owner, a.account, a.height, a.kind, a.consensus)
  {
    hide Ready, S.Pay, G.IsAvailable;
  }

  /** In every run a proposal is at any later time about what it was proposed for: its owner, subject, kind, consensus,
      height and deadlines are those of the event that made it. */
  lemma {:induction false} RunProposed(states: seq<State>, events: seq<Event>, opening: nat, i: nat, j: nat, id: nat)
    requires IsRun(states, events) && Inv(states[0], opening) && i < j < |states| && Proposes(states[i], events[i], id)
    ensures id in states[j].core.polls.proposals
    ensures var p, a, now := states[j].core.polls.proposals[id], events[i].action, Second(events[i]);
      && p.owner == a.owner && p.account == a.account && p.kind == a.kind && p.consensus == a.consensus
      && p.blockHeight == a.height && p.start == now && p.voteEnd == now + 7200 && p.execEnd == now + 7200 + 259200
  {
    hide Legal, Ready, Apply, Inv;
    RunSound(states, events, opening, i);
    assert Next(states[i], events[i], states[i + 1]);
    ProposedRow(states[i], events[i], id);
    RunLasting(states, events, opening, i + 1, j);
  }

  // ---------------------------------------------------------------- executions

  /** In every reachable state: an execution whose yes votes lead by more than a tenth of the total installs the
      account as producer, removes it, or switches the consensus; any other changes no producer, no node, no count
      and no consensus. In both cases it leaves its record in the proposal and touches nothing else. */
  lemma {:induction false} ExecOutcome(s: State, ev: Event, s': State, opening: nat)
    requires Inv(s, opening) && Next(s, ev, s') && ev.action.ExecProposal? && Commits(s, ev)
    ensures ev.action.id in s.core.polls.proposals && 0 <= s.core.polls.stake
    ensures var p, stake := s.core.polls.proposals[ev.action.id], s.core.polls.stake;
      var q, ps, ps' := p.account, s.core.book.producers, s'.core.book.producers;
      && (10 * (p.yeas - p.nays) > stake && p.kind == 1 ==>
            && q in ev.auths && q in s.gnodes && s'.gnodes == s.gnodes[q := s.gnodes[q].(isBp := true)]
            && Installed(ps, ps', s.gnodes[q], q) && s'.producerNum == s.producerNum + 1 && s'.consensus == s.consensus)
      && (10 * (p.yeas - p.nays) > stake && p.kind == 2 ==>
            && q in ev.auths && q in s.gnodes && s'.gnodes == s.gnodes[q := s.gnodes[q].(isBp := false)]
            && Ousted(ps, ps', q) && s'.producerNum == s.producerNum - 1 && s'.consensus == s.consensus)
      && (10 * (p.yeas - p.nays) > stake && p.kind == 3 ==>
            s'.consensus == p.consensus && ps' == ps && s'.gnodes == s.gnodes && s'.producerNum == s.producerNum)
      && (10 * (p.yeas - p.nays) <= stake || !(1 <= p.kind <= 3) ==>
            s'.consensus == s.consensus && ps' == ps && s'.gnodes == s.gnodes && s'.producerNum == s.producerNum)
      && s'.core.polls == s.core.polls.(proposals := s.core.polls.proposals[ev.action.id :=
           p.(satisfied := p.satisfied || (10 * (p.yeas - p.nays) > stake && 1 <= p.kind <= 3),
              executed := true, execTime := Second(ev), staked := stake)])
      && s' == At(s, ev.micros).WithGoverned(s'.Governed()).WithPolls(s'.core.polls)
  {
    hide Inv, Ready, Legal, G.ExecProposal, Installed, Ousted;
    StakeNonNegative(s, opening);
    var s1 := At(s, ev.micros);
    ExecDecides(s1.Governed(), s1.core.polls, s1.Env(ev.scale), ev.auths, ev.action.owner, ev.action.id);
  }

  /** In every reachable state execproposal commits exactly when a governance node executes a proposal in time, for
      the first time, after the vote once there are more than seven producers, and a proposal that leads by more than a
      tenth of the total can be performed. */
  lemma {:induction false} ExecCommits(s: State, ev: Event, s': State, opening: nat)
    requires Inv(s, opening) && Next(s, ev, s') && ev.action.ExecProposal?
    ensures Commits(s, ev) <==>
      && ev.action.owner in s.gnodes && ev.action.id in s.core.polls.proposals
      && var p := s.core.polls.proposals[ev.action.id];
         && !p.executed && Second(ev) < p.execEnd
         && (|s.core.book.producers| % 0x1_0000 > 7 ==> p.voteEnd < Second(ev))
         && (10 * (p.yeas - p.nays) > s.core.polls.stake ==> Performable(s.Governed(), p, ev.auths))
  {
    hide Inv, Ready, G.ExecProposal, Performable;
    TimePasses(s, ev.micros, opening);
    StakeNonNegative(s, opening);
    var s1 := At(s, ev.micros);
    ExecIff(s1.Governed(), s1.core.polls, s1.Env(ev.scale), ev.auths, ev.action.owner, ev.action.id);
  }

  /** In every reachable state voteproposal commits exactly on an existing proposal before its voting ends. */
  lemma {:induction false} VoteCommits(s: State, ev: Event, s': State, opening: nat)
    requires Inv(s, opening) && Next(s, ev, s') && ev.action.VoteProposal?
    ensures Commits(s, ev) <==>
      ev.action.id in s.core.polls.proposals && Second(ev) < s.core.polls.proposals[ev.action.id].voteEnd
  {
    hide Inv, Ready, Polls.VoteProposal;
    TimePasses(s, ev.micros, opening);
    var s1 := At(s, ev.micros);
    HasRow(s1, ev.action);
    VoteRecords(s1.core.polls, s1.core.book.voters, ev.action.voter, ev.action.id, ev.action.yea, s1.Now());
  }
}
