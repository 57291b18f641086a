/** Proposal votes: cached tallies that must agree with a recount from the current stakes, while
    stakes change under open votes. */
module Polls {
  import opened Base
  import opened Votes
  import opened VoteWeight

  /** proposal_info. Kind 1 adds a block producer, 2 removes one, 3 switches the consensus. */
  datatype Proposal = Proposal(owner: Name, account: Name, start: nat, voteEnd: nat, execEnd: nat, execTime: nat,
                               blockHeight: nat, kind: int, satisfied: bool, executed: bool, consensus: int,
                               yeas: int, nays: int, staked: int)

  /** proposal_vote_info. */
  datatype Vote = Vote(yea: bool, time: nat)

  /** The proposals table, the votes tables by proposal and voter, proposal_num and
      total_proposal_stake. */
  datatype Tables = Tables(proposals: map<nat, Proposal>, votes: map<(nat, Name), Vote>, num: int, stake: int)

  function Add(p: Proposal, yea: bool, w: int): Proposal {
    if yea then p.(yeas := p.yeas + w) else p.(nays := p.nays + w)
  }

  predicate Open(p: Proposal, now: nat) { now < p.voteEnd }

  /** update_proposal_votes: every open proposal the voter has voted on moves by `w`. */
  function Reweigh(t: Tables, voter: Name, w: int, now: nat): Tables {
    if t.num == 0 then t else
      t.(proposals := map id | id in t.proposals ::
           if Open(t.proposals[id], now) && (id, voter) in t.votes
           then Add(t.proposals[id], t.votes[(id, voter)].yea, w)
           else t.proposals[id])
  }

  /** The tail of delegatebw and undelegatebw, `w` being the change of the account's weight. */
  function Restake(t: Tables, voter: Name, w: int, now: nat): Tables {
    if w == 0 then t else
      var t1 := Reweigh(t, voter, w, now);
      t1.(stake := t1.stake + w)
  }

  /** voteproposal by an account that has a voter row; the source reads that row unchecked. */
  function VoteProposal(t: Tables, voters: Voters, voter: Name, id: nat, yea: bool, now: nat): Outcome<Tables>
    requires voter in voters
  {
    if id !in t.proposals then Abort(NoSuchProposal) else
    :- Assert(Open(t.proposals[id], now), VoteClosed);
    var w := Weight(voters[voter].staked);
    var p := t.proposals[id];
    if (id, voter) in t.votes then
      if t.votes[(id, voter)].yea == yea then Commit(t) else
        Commit(t.(votes := t.votes[(id, voter) := Vote(yea, now)],
                  proposals := t.proposals[id := Add(Add(p, !yea, -w), yea, w)]))
    else
      Commit(t.(votes := t.votes[(id, voter) := Vote(yea, now)],
                proposals := t.proposals[id := Add(p, yea, w)]))
  }

  // ---------------------------------------------------------------- the recount

  ghost function Share(t: Tables, id: nat, v: Name, yea: bool, staked: int): int {
    if (id, v) in t.votes && t.votes[(id, v)].yea == yea then Weight(staked) else 0
  }

  ghost function TallyColumn(t: Tables, voters: Voters, id: nat, yea: bool): map<Name, int> {
    map v | v in voters :: Share(t, id, v, yea, voters[v].staked)
  }

  /** The current stake weight of the voters who voted `yea` on proposal `id`. */
  ghost function Recount(t: Tables, voters: Voters, id: nat, yea: bool): int { Sum(TallyColumn(t, voters, id, yea)) }

  ghost function WeightColumn(voters: Voters): map<Name, int> { map v | v in voters :: Weight(voters[v].staked) }

  ghost predicate TallySound(t: Tables, voters: Voters, id: nat, now: nat)
    requires id in t.proposals
  {
    Open(t.proposals[id], now) ==>
      && t.proposals[id].yeas == Recount(t, voters, id, true)
      && t.proposals[id].nays == Recount(t, voters, id, false)
  }

  /** Ids are 0..num-1, votes are on existing proposals by existing voters, the tallies of open
      proposals equal their recount and the total is the weight of all voters. */
  ghost predicate Sound(t: Tables, voters: Voters, now: nat) {
    && 0 <= t.num && (forall id :: id in t.proposals <==> 0 <= id < t.num)
    && (forall k <- t.votes :: k.0 in t.proposals && k.1 in voters)
    && (forall id <- t.proposals {:trigger TallySound(t, voters, id, now)} :: TallySound(t, voters, id, now))
    && t.stake == Sum(WeightColumn(voters))
  }

  /** Time only closes proposals. */
  lemma {:induction false} LaterSound(t: Tables, voters: Voters, now: nat, later: nat)
    requires Sound(t, voters, now) && now <= later
    ensures Sound(t, voters, later)
  {
    forall id | id in t.proposals ensures TallySound(t, voters, id, later) { assert TallySound(t, voters, id, now); }
  }

  /** Only the stakes of the voters matter. */
  lemma {:induction false} SameStakesSound(t: Tables, voters: Voters, voters': Voters, now: nat)
    requires Sound(t, voters, now) && voters'.Keys == voters.Keys
    requires forall v <- voters :: voters'[v].staked == voters[v].staked
    ensures Sound(t, voters', now)
  {
    hide Sum, Weight, Share;
    assert WeightColumn(voters') == WeightColumn(voters);
    forall id | id in t.proposals ensures TallySound(t, voters', id, now) {
      assert TallySound(t, voters, id, now);
      assert TallyColumn(t, voters', id, true) == TallyColumn(t, voters, id, true);
      assert TallyColumn(t, voters', id, false) == TallyColumn(t, voters, id, false);
    }
  }

  // ---------------------------------------------------------------- stakes change under open votes

  function StakeOf(voters: Voters, v: Name): int { if v in voters then voters[v].staked else 0 }

  lemma {:induction false} RecountRow(t: Tables, voters: Voters, v: Name, row: Voter, id: nat, yea: bool)
    requires (id, v) in t.votes ==> v in voters
    ensures Recount(t, voters[v := row], id, yea)
      == Recount(t, voters, id, yea) + Share(t, id, v, yea, row.staked) - Share(t, id, v, yea, StakeOf(voters, v))
  {
    hide Sum, Weight;
    SumChange(TallyColumn(t, voters, id, yea), TallyColumn(t, voters[v := row], id, yea), v);
  }

  /** A stake may change at any time: the incremental update of delegatebw and undelegatebw makes every
      open tally and the total agree with the new recount. */
  lemma {:induction false} RestakeSound(t: Tables, voters: Voters, v: Name, row: Voter, now: nat)
    requires Sound(t, voters, now)
    ensures Sound(Restake(t, v, Weight(row.staked) - Weight(StakeOf(voters, v)), now), voters[v := row], now)
  {
    hide Sum, Weight, Recount, TallySound;
    ZeroWeight();
    var w := Weight(row.staked) - Weight(StakeOf(voters, v));
    var t', voters' := Restake(t, v, w, now), voters[v := row];
    SumChange(WeightColumn(voters), WeightColumn(voters'), v);
    forall id | id in t'.proposals ensures TallySound(t', voters', id, now) {
      assert TallySound(t, voters, id, now);
      RestakeTally(t, voters, v, row, id, now);
    }
  }

  /** One proposal: its tallies move by the change of the voter's weight, on the side the voter is on. */
  lemma {:induction false} RestakeTally(t: Tables, voters: Voters, v: Name, row: Voter, id: nat, now: nat)
    requires t.num != 0 && id in t.proposals && TallySound(t, voters, id, now) && ((id, v) in t.votes ==> v in voters)
    ensures var t' := Restake(t, v, Weight(row.staked) - Weight(StakeOf(voters, v)), now);
      id in t'.proposals && TallySound(t', voters[v := row], id, now)
  {
    hide Sum, Weight, Recount;
    var t' := Restake(t, v, Weight(row.staked) - Weight(StakeOf(voters, v)), now);
    RecountRow(t, voters, v, row, id, true);
    RecountRow(t, voters, v, row, id, false);
    SameVotes(t, t', voters[v := row], id);
  }

  lemma {:induction false} ZeroWeight()
    ensures Weight(0) == 0
  {
  }

  lemma {:induction false} SameVotes(t: Tables, t': Tables, voters: Voters, id: nat)
    requires t'.votes == t.votes
    ensures Recount(t', voters, id, true) == Recount(t, voters, id, true)
    ensures Recount(t', voters, id, false) == Recount(t, voters, id, false)
  {
    hide Sum;
    assert TallyColumn(t', voters, id, true) == TallyColumn(t, voters, id, true);
    assert TallyColumn(t', voters, id, false) == TallyColumn(t, voters, id, false);
  }

  // ---------------------------------------------------------------- votes and changes of mind

  lemma {:induction false} RecountOther(t: Tables, t': Tables, voters: Voters, v: Name, id: nat, other: nat, yea: bool)
    requires forall k :: k != (id, v) ==> (k in t.votes <==> k in t'.votes)
    requires forall k <- t.votes :: k != (id, v) ==> t.votes[k] == t'.votes[k]
    requires other != id
    ensures Recount(t', voters, other, yea) == Recount(t, voters, other, yea)
  {
    hide Sum, Weight;
    assert TallyColumn(t', voters, other, yea) == TallyColumn(t, voters, other, yea);
  }

  lemma {:induction false} RecountVote(t: Tables, t': Tables, voters: Voters, v: Name, id: nat, yea: bool)
    requires v in voters
    requires forall k :: k != (id, v) ==> (k in t.votes <==> k in t'.votes)
    requires forall k <- t.votes :: k != (id, v) ==> t.votes[k] == t'.votes[k]
    ensures Recount(t', voters, id, yea) == Recount(t, voters, id, yea)
      + Share(t', id, v, yea, voters[v].staked) - Share(t, id, v, yea, voters[v].staked)
    ensures forall other: nat :: other != id ==> Recount(t', voters, other, yea) == Recount(t, voters, other, yea)
  {
    hide Sum, Weight;
    SumChange(TallyColumn(t, voters, id, yea), TallyColumn(t', voters, id, yea), v);
    forall other: nat | other != id ensures Recount(t', voters, other, yea) == Recount(t, voters, other, yea) {
      RecountOther(t, t', voters, v, id, other, yea);
    }
  }

  /** A first vote, a repeated vote and a change of mind all keep every tally equal to its recount. */
  lemma {:induction false} VoteProposalSound(t: Tables, voters: Voters, v: Name, id: nat, yea: bool, now: nat)
    requires Sound(t, voters, now) && v in voters
    ensures var r := VoteProposal(t, voters, v, id, yea, now); r.Commit? ==> Sound(r.value, voters, now)
  {
    hide Sum, Weight, Recount;
    var r := VoteProposal(t, voters, v, id, yea, now);
    if r.Commit? {
      var t' := r.value;
      RecountVote(t, t', voters, v, id, true);
      RecountVote(t, t', voters, v, id, false);
      forall x | x in t'.proposals ensures TallySound(t', voters, x, now) {
        assert TallySound(t, voters, x, now);
      }
    }
  }

  // ---------------------------------------------------------------- consequences

  ghost predicate NoDebt(voters: Voters) { forall v <- voters :: voters[v].staked >= 0 }

  /** For an open proposal, yeas and nays together never exceed the total of all voters. */
  lemma {:induction false} TurnoutWithinTotal(t: Tables, voters: Voters, id: nat, now: nat)
    requires Sound(t, voters, now) && NoDebt(voters) && id in t.proposals && Open(t.proposals[id], now)
    ensures 0 <= t.proposals[id].yeas && 0 <= t.proposals[id].nays
    ensures t.proposals[id].yeas + t.proposals[id].nays <= t.stake
  {
    hide Sum, Weight;
    assert TallySound(t, voters, id, now);
    var yes, no := TallyColumn(t, voters, id, true), TallyColumn(t, voters, id, false);
    var both := map v | v in voters :: yes[v] + no[v];
    forall v | v in voters ensures Weight(voters[v].staked) >= 0 { WeightClosedForm(voters[v].staked); }
    SumAdd(yes, no, both);
    SumNonNegative(yes);
    SumNonNegative(no);
    SumMonotone(both, WeightColumn(voters));
  }
}
