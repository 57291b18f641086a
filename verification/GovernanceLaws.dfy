/** What governance keeps: producers backed by governance nodes, proposals by their owners, stakes of
    nodes by tokens, and reward counters by the producers' own counts. */
module GovernanceLaws {
  import opened Base
  import opened Votes
  import opened VoteWeight
  import Polls
  import Token
  import opened Staking
  import opened StakingLaws
  import opened Governance

  /** An active producer has a governance node marked as producer with the same key, url and location. */
  ghost predicate Backed(producers: Producers, gs: GNodes, p: Name)
    requires p in producers
  {
    producers[p].active ==>
      && p in gs && gs[p].isBp
      && gs[p].key == producers[p].key && gs[p].url == producers[p].url && gs[p].location == producers[p].location
  }

  ghost predicate ProducersBacked(producers: Producers, gs: GNodes) {
    forall p <- producers {:trigger Backed(producers, gs, p)} :: Backed(producers, gs, p)
  }

  /** The owner of every proposal still open for voting is a governance node. */
  ghost predicate OwnersPresent(proposals: map<nat, Polls.Proposal>, gs: GNodes, now: nat) {
    forall id <- proposals :: Polls.Open(proposals[id], now) ==> proposals[id].owner in gs
  }

  /** Node stakes are the fee, paid by an account other than the pot. */
  ghost predicate NodesPaid(gs: GNodes) {
    forall o <- gs :: gs[o].staked == GNODE_FEE && gs[o].payer != BPSTK
  }

  ghost predicate GovSound(x: Effect, proposals: map<nat, Polls.Proposal>, now: nat) {
    ProducersBacked(x.producers, x.gnodes) && OwnersPresent(proposals, x.gnodes, now) && NodesPaid(x.gnodes)
  }

  ghost function NodeColumn(gs: GNodes): map<Name, int> { map o | o in gs :: gs[o].staked }

  /** What the node pot holds beyond the stakes of all governance nodes. */
  ghost function NodeSlack(t: Token.State, gs: GNodes): int { Funds(t, BPSTK) - Sum(NodeColumn(gs)) }

  // ---------------------------------------------------------------- nodes come and go

  lemma {:induction false} StakeToGnodeSound(t: Token.State, x: Effect, proposals: map<nat, Polls.Proposal>, e: Env,
                                             payer: Name, owner: Name, key: nat, url: string, location: nat)
    requires Token.Sound(t) && GovSound(x, proposals, e.Now())
    ensures var r := StakeToGnode(t, x.gnodes, e, payer, owner, key, url, location);
      r.Commit? ==>
        && GovSound(x.(gnodes := r.value.1), proposals, e.Now())
        && Token.Sound(r.value.0) && r.value.0.stats == t.stats && payer != BPSTK
        && NodeSlack(r.value.0, r.value.1) == NodeSlack(t, x.gnodes)
  {
    hide Pay, Token.Sound, Sum;
    var r := StakeToGnode(t, x.gnodes, e, payer, owner, key, url, location);
    if r.Commit? {
      PayEffect(t, e, payer, BPSTK, GNODE_FEE);
      var gs := r.value.1;
      SumChange(NodeColumn(x.gnodes), NodeColumn(gs), owner);
      forall p | p in x.producers ensures Backed(x.producers, gs, p) { assert Backed(x.producers, x.gnodes, p); }
    }
  }

  lemma {:induction false} UnstakeGnodeSound(t: Token.State, x: Effect, proposals: map<nat, Polls.Proposal>, e: Env,
                                             owner: Name)
    requires Token.Sound(t) && GovSound(x, proposals, e.Now())
    ensures var r := UnstakeGnode(t, x.gnodes, proposals, e, owner);
      r.Commit? ==>
        && GovSound(x.(gnodes := r.value.1), proposals, e.Now())
        && Token.Sound(r.value.0) && r.value.0.stats == t.stats
        && NodeSlack(r.value.0, r.value.1) == NodeSlack(t, x.gnodes)
  {
    hide Pay, Token.Sound, Sum;
    var r := UnstakeGnode(t, x.gnodes, proposals, e, owner);
    if r.Commit? {
      PayEffect(t, e, BPSTK, x.gnodes[owner].payer, x.gnodes[owner].staked);
      var gs := r.value.1;
      SumChange(NodeColumn(x.gnodes), NodeColumn(gs), owner);
      forall p | p in x.producers ensures Backed(x.producers, gs, p) { assert Backed(x.producers, x.gnodes, p); }
    }
  }

  /** As long as the pot covers the node stakes, a node can leave exactly when it is not a producer and
      no open proposal involves it. */
  lemma {:induction false} UnstakeGnodeIff(t: Token.State, x: Effect, proposals: map<nat, Polls.Proposal>, e: Env,
                                           owner: Name)
    requires Token.Sound(t) && CoreLive(t) && GovSound(x, proposals, e.Now()) && NodeSlack(t, x.gnodes) >= 0
    requires owner in x.gnodes ==> x.gnodes[owner].payer in e.accounts
    ensures UnstakeGnode(t, x.gnodes, proposals, e, owner).Commit?
      <==> && owner in x.gnodes && !x.gnodes[owner].isBp
           && forall id <- proposals :: e.Now() < proposals[id].voteEnd ==>
                proposals[id].owner != owner && proposals[id].account != owner
  {
    hide Pay, Token.Sound, Sum;
    if owner in x.gnodes {
      SumAtLeast(NodeColumn(x.gnodes), owner);
      PayEffect(t, e, BPSTK, x.gnodes[owner].payer, x.gnodes[owner].staked);
    }
  }

  lemma {:induction false} UpdateGnodeSound(x: Effect, proposals: map<nat, Polls.Proposal>, owner: Name, key: nat,
                                            url: string, location: nat, t: Token.State, now: nat)
    requires GovSound(x, proposals, now)
    ensures var r := UpdateGnode(x.gnodes, owner, key, url, location);
      r.Commit? ==> GovSound(x.(gnodes := r.value), proposals, now) && NodeSlack(t, r.value) == NodeSlack(t, x.gnodes)
  {
    hide Sum;
    var r := UpdateGnode(x.gnodes, owner, key, url, location);
    if r.Commit? {
      assert NodeColumn(r.value) == NodeColumn(x.gnodes);
      forall p | p in x.producers ensures Backed(x.producers, r.value, p) { assert Backed(x.producers, x.gnodes, p); }
    }
  }

  // ---------------------------------------------------------------- proposals

  /** The id handed out is the number of proposals made so far. */
  lemma {:induction false} AvailableIsNum(polls: Polls.Tables, voters: Voters, now: nat, id: nat)
    requires Polls.Sound(polls, voters, now) && IsAvailable(polls.proposals, id)
    ensures id == polls.num
  {
    hide Sum;
    if polls.num > 0 { assert polls.num - 1 in polls.proposals; }
    if id > 0 { assert id - 1 in polls.proposals; }
  }

  lemma {:induction false} NewProposalSound(t: Token.State, x: Effect, polls: Polls.Tables, voters: Voters, e: Env,
                                            owner: Name,
                                            account: Name, height: nat, kind: int, consensus: int, id: nat)
    requires Token.Sound(t) && GovSound(x, polls.proposals, e.Now()) && Polls.Sound(polls, voters, e.Now())
    requires IsAvailable(polls.proposals, id)
    ensures var r := NewProposal(t, x.gnodes, polls, e, owner, account, height, kind, consensus, id);
      r.Commit? ==>
        && Token.Sound(r.value.0) && r.value.0.stats == t.stats
        && GovSound(x, r.value.1.proposals, e.Now()) && Polls.Sound(r.value.1, voters, e.Now())
  {
    hide Pay, Token.Sound, Sum, Weight;
    var r := NewProposal(t, x.gnodes, polls, e, owner, account, height, kind, consensus, id);
    if r.Commit? {
      PayEffect(t, e, owner, PROP, PROPOSAL_FEE);
      AvailableIsNum(polls, voters, e.Now(), id);
      var polls' := r.value.1;
      forall k | k in polls'.proposals ensures Polls.TallySound(polls', voters, k, e.Now()) {
        Polls.SameVotes(polls, polls', voters, k);
        if k == id {
          SumZero(Polls.TallyColumn(polls', voters, id, true));
          SumZero(Polls.TallyColumn(polls', voters, id, false));
        } else {
          assert Polls.TallySound(polls, voters, k, e.Now());
        }
      }
    }
  }

  lemma {:induction false} CarryBacked(x: Effect, p: Polls.Proposal, auths: set<Name>)
    requires ProducersBacked(x.producers, x.gnodes) && NodesPaid(x.gnodes)
    ensures var r := Carry(x, p, auths);
      r.Commit? ==>
        && ProducersBacked(r.value.producers, r.value.gnodes) && NodesPaid(r.value.gnodes)
        && r.value.gnodes.Keys == x.gnodes.Keys
        && NodeColumn(r.value.gnodes) == NodeColumn(x.gnodes)
  {
    var r := Carry(x, p, auths);
    if r.Commit? {
      forall q | q in r.value.producers ensures Backed(r.value.producers, r.value.gnodes, q) {
        if q in x.producers { assert Backed(x.producers, x.gnodes, q); }
      }
    }
  }

  /** Executing a proposal keeps producers backed and the tallies sound, happens before the deadline, and
      marks the proposal so that it cannot happen again. */
  lemma {:induction false} ExecProposalSound(x: Effect, polls: Polls.Tables, voters: Voters, e: Env, auths: set<Name>,
                                             owner: Name, id: nat)
    requires GovSound(x, polls.proposals, e.Now()) && Polls.Sound(polls, voters, e.Now())
    ensures var r := ExecProposal(x, polls, e, auths, owner, id);
      r.Commit? ==>
        && GovSound(r.value.0, r.value.1.proposals, e.Now()) && Polls.Sound(r.value.1, voters, e.Now())
        && NodeColumn(r.value.0.gnodes) == NodeColumn(x.gnodes)
        && id in polls.proposals && !polls.proposals[id].executed && e.Now() < polls.proposals[id].execEnd
        && r.value.1.proposals[id].executed
  {
    hide Sum, Weight, Carry, Passes, ProducersSize;
    var r := ExecProposal(x, polls, e, auths, owner, id);
    if r.Commit? {
      CarryBacked(x, polls.proposals[id], auths);
      var polls' := r.value.1;
      forall k | k in polls'.proposals ensures Polls.TallySound(polls', voters, k, e.Now()) {
        assert Polls.TallySound(polls, voters, k, e.Now());
        Polls.SameVotes(polls, polls', voters, k);
      }
    }
  }

  lemma {:induction false} RmvProducerSound(x: Effect, proposals: map<nat, Polls.Proposal>, p: Name, now: nat)
    requires GovSound(x, proposals, now)
    ensures var r := RmvProducer(x.producers, p); r.Commit? ==> GovSound(x.(producers := r.value), proposals, now)
  {
    var r := RmvProducer(x.producers, p);
    if r.Commit? {
      forall q | q in r.value ensures Backed(r.value, x.gnodes, q) { assert Backed(x.producers, x.gnodes, q); }
    }
  }

  // ---------------------------------------------------------------- rewards

  ghost function UnpaidColumn(producers: Producers): map<Name, int> { map p | p in producers :: producers[p].unpaid }

  /** The global count of unpaid blocks is the sum of the producers' own counts. */
  ghost predicate RewardsSound(producers: Producers, w: Rewards) { w.unpaid == Sum(UnpaidColumn(producers)) }

  lemma {:induction false} CountBlockSound(producers: Producers, w: Rewards, producer: Name)
    requires RewardsSound(producers, w)
    ensures var (ps, w') := CountBlock(producers, w, producer); RewardsSound(ps, w') && w'.bucket == w.bucket
  {
    hide Sum;
    SumChange(UnpaidColumn(producers), UnpaidColumn(CountBlock(producers, w, producer).0), producer);
  }

  /** The guard on the total never changes what a producer is paid. */
  lemma {:induction false} PayIsExact(producers: Producers, w: Rewards, owner: Name)
    requires RewardsSound(producers, w) && owner in producers
    ensures BlockPay(w, producers[owner]) == REWARD_PER_BLOCK * producers[owner].unpaid
    ensures 0 <= w.unpaid - producers[owner].unpaid
  {
    hide Sum;
    SumAtLeast(UnpaidColumn(producers), owner);
  }

  /** A claim pays exactly the producer's own blocks, never underflows the total, and the bucket falls by
      exactly what is paid. */
  lemma {:induction false} ClaimRewardsSound(t: Token.State, producers: Producers, w: Rewards, stake: int, e: Env,
                                             owner: Name)
    requires Token.Sound(t) && RewardsSound(producers, w)
    ensures var r := ClaimRewards(t, producers, w, stake, e, owner);
      r.Commit? ==>
        && Token.Sound(r.value.0) && r.value.0.stats == t.stats && owner in producers
        && RewardsSound(r.value.1, r.value.2) && 0 <= r.value.2.unpaid
        && r.value.2.bucket == w.bucket - REWARD_PER_BLOCK * producers[owner].unpaid
        && (owner != BLKPAY ==> Funds(r.value.0, owner) == Funds(t, owner) + REWARD_PER_BLOCK * producers[owner].unpaid)
        && forall o: Name {:trigger Funds(r.value.0, o)} :: o != BLKPAY ==> Funds(r.value.0, o) >= Funds(t, o)
  {
    hide Pay, Token.Sound, Sum;
    var r := ClaimRewards(t, producers, w, stake, e, owner);
    if r.Commit? {
      PayIsExact(producers, w, owner);
      PayEffect(t, e, BLKPAY, owner, BlockPay(w, producers[owner]));
      SumChange(UnpaidColumn(producers), UnpaidColumn(r.value.1), owner);
    }
  }

  /** A producer is paid at most once a day. */
  lemma {:induction false} ClaimsApart(t: Token.State, producers: Producers, w: Rewards, stake: int, e: Env,
                                       owner: Name,
                                       later: Env, t2: Token.State, w2: Rewards, stake2: int)
    requires ClaimRewards(t, producers, w, stake, e, owner).Commit?
    requires e.micros <= later.micros <= e.micros + MICROS_PER_DAY
    ensures ClaimRewards(t2, ClaimRewards(t, producers, w, stake, e, owner).value.1, w2, stake2, later, owner).Abort?
  {
    hide Pay;
  }

  // ---------------------------------------------------------------- what a proposal decides

  /** The lead of a proposal is more than a tenth of the total. The division of the source rounds towards zero; a
      total is never negative in a reachable state. */
  predicate Wins(p: Polls.Proposal, stake: int) {
    if stake >= 0 then 10 * (p.yeas - p.nays) > stake else 10 * (p.yeas - p.nays - 1) >= stake
  }

  lemma {:induction false} PassesIff(p: Polls.Proposal, stake: int)
    ensures Passes(p, stake) <==> Wins(p, stake)
  {
  }

  /** What a won proposal still needs: a governance node with a usable key and url to be elected, a registered
      producer to be voted out, in both cases with the account's own authority. */
  ghost predicate Performable(x: Effect, p: Polls.Proposal, auths: set<Name>) {
    && (p.kind == 1 || p.kind == 2 ==> p.account in x.gnodes && p.account in auths)
    && (p.kind == 1 && p.account in x.gnodes ==> |x.gnodes[p.account].url| < 512 && x.gnodes[p.account].key != 0)
    && (p.kind == 2 ==> p.account in x.producers)
  }

  /** execproposal commits exactly when a governance node executes a proposal in time, for the first time, after the
      vote once there are more than seven producers, and a won proposal can be performed. */
  lemma {:induction false} ExecIff(x: Effect, polls: Polls.Tables, e: Env, auths: set<Name>, owner: Name, id: nat)
    ensures ExecProposal(x, polls, e, auths, owner, id).Commit? <==>
      && owner in x.gnodes && id in polls.proposals
      && var p := polls.proposals[id];
         && !p.executed && e.Now() < p.execEnd && (|x.producers| % 0x1_0000 > 7 ==> p.voteEnd < e.Now())
         && (Wins(p, polls.stake) ==> Performable(x, p, auths))
  {
    hide Passes, Wins;
    if id in polls.proposals { PassesIff(polls.proposals[id], polls.stake); }
  }

  /** The row of an account that is elected: what its node says, with the votes and blocks it had. */
  ghost predicate Installed(ps: Producers, ps': Producers, g: GNode, q: Name) {
    && q in ps' && ps' == ps[q := ps'[q]]
    && ps'[q].active && ps'[q].key == g.key && ps'[q].url == g.url && ps'[q].location == g.location
    && (if q in ps then ps'[q].votes == ps[q].votes && ps'[q].unpaid == ps[q].unpaid && ps'[q].lastClaim == ps[q].lastClaim
        else ps'[q].votes == 0.0 && ps'[q].unpaid == 0 && ps'[q].lastClaim == 0)
  }

  /** The row of a producer that is voted out: inactive, without a key, otherwise as it was. */
  ghost predicate Ousted(ps: Producers, ps': Producers, q: Name) {
    q in ps && q in ps' && ps' == ps[q := ps'[q]] && ps'[q] == ps[q].(key := ps'[q].key, active := false) && ps'[q].key == 0
  }

  /** An execution changes nothing but the proposal's own record unless the proposal is won; then it installs the
      node as producer, removes the producer, or switches the consensus, and nothing else. */
  lemma {:induction false} ExecDecides(x: Effect, polls: Polls.Tables, e: Env, auths: set<Name>, owner: Name, id: nat)
    requires ExecProposal(x, polls, e, auths, owner, id).Commit?
    ensures var (x', polls') := ExecProposal(x, polls, e, auths, owner, id).value;
      && id in polls.proposals && id in polls'.proposals
      && polls' == polls.(proposals := polls.proposals[id := polls'.proposals[id]])
      && var p, q := polls.proposals[id], polls.proposals[id].account;
         && polls'.proposals[id] == p.(satisfied := p.satisfied || (Wins(p, polls.stake) && 1 <= p.kind <= 3),
                                       executed := true, execTime := e.Now(), staked := polls.stake)
         && (!Wins(p, polls.stake) || !(1 <= p.kind <= 3) ==> x' == x)
         && (Wins(p, polls.stake) && p.kind == 1 ==>
               && q in x.gnodes && q in x'.gnodes && x'.gnodes == x.gnodes[q := x.gnodes[q].(isBp := true)]
               && Installed(x.producers, x'.producers, x.gnodes[q], q) && q in auths
               && x'.producerNum == x.producerNum + 1 && x'.consensus == x.consensus)
         && (Wins(p, polls.stake) && p.kind == 2 ==>
               && q in x.gnodes && q in x'.gnodes && x'.gnodes == x.gnodes[q := x.gnodes[q].(isBp := false)]
               && Ousted(x.producers, x'.producers, q) && q in auths
               && x'.producerNum == x.producerNum - 1 && x'.consensus == x.consensus)
         && (Wins(p, polls.stake) && p.kind == 3 ==> x' == x.(consensus := p.consensus))
  {
    hide Passes, Wins, ProducersSize;
    PassesIff(polls.proposals[id], polls.stake);
  }
}
