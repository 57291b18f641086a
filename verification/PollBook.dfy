/** The proposal tables as the contract updates them in place. */
module PollBook {
  import opened Base
  import opened Votes
  import opened VoteWeight
  import Polls

  class PollBook {
    var proposals: map<nat, Polls.Proposal>
    var votes: map<(nat, Name), Polls.Vote>
    var num: int
    var stake: int

    ghost function State(): Polls.Tables
      reads this
    {
      Polls.Tables(proposals, votes, num, stake)
    }

    constructor ()
      ensures State() == Polls.Tables(map[], map[], 0, 0)
    {
      proposals, votes, num, stake := map[], map[], 0, 0;
    }

    /** update_proposal_votes: the loop over the index by voting end. Any order visits every row, and
        no row moves in the index. */
    method UpdateProposalVotes(voter: Name, w: int, now: nat)
      modifies this`proposals
      ensures State() == Polls.Reweigh(old(State()), voter, w, now)
    {
      if num == 0 { return; }
      ghost var after := Polls.Reweigh(State(), voter, w, now).proposals;
      ghost var before := proposals;
      var todo := proposals.Keys;
      while todo != {}
        invariant todo <= before.Keys && proposals.Keys == before.Keys
        invariant forall id <- before :: proposals[id] == if id in todo then before[id] else after[id]
      {
        var id :| id in todo;
        todo := todo - {id};
        if proposals[id].voteEnd <= now { continue; }
        if (id, voter) in votes {
          var p := proposals[id];
          if votes[(id, voter)].yea {
            proposals := proposals[id := p.(yeas := p.yeas + w)];
          } else {
            proposals := proposals[id := p.(nays := p.nays + w)];
          }
        }
      }
      assert proposals == after;
    }

    /** voteproposal. */
    method VoteProposal(book: map<Name, Voter>, voter: Name, id: nat, yea: bool, now: nat) returns (ok: bool)
      requires voter in book
      modifies this`proposals, this`votes
      ensures ok == Polls.VoteProposal(old(State()), book, voter, id, yea, now).Commit?
      ensures ok ==> State() == Polls.VoteProposal(old(State()), book, voter, id, yea, now).value
    {
      if id !in proposals || now >= proposals[id].voteEnd { return false; }
      var w := StakeToProposalVotes(book[voter].staked);
      var p := proposals[id];
      if (id, voter) in votes {
        if yea != votes[(id, voter)].yea {
          votes := votes[(id, voter) := Polls.Vote(yea, now)];
          if yea {
            proposals := proposals[id := p.(nays := p.nays - w, yeas := p.yeas + w)];
          } else {
            proposals := proposals[id := p.(nays := p.nays + w, yeas := p.yeas - w)];
          }
        }
      } else {
        votes := votes[(id, voter) := Polls.Vote(yea, now)];
        if yea {
          proposals := proposals[id := p.(yeas := p.yeas + w)];
        } else {
          proposals := proposals[id := p.(nays := p.nays + w)];
        }
      }
      return true;
    }
  }
}
