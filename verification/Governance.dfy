/** Governance nodes, the life of a proposal, and block rewards. */
module Governance {
  import opened Base
  import opened Votes
  import opened VoteWeight
  import Polls
  import Token
  import opened Staking

  const GNODE_FEE := 10000
  const PROPOSAL_FEE := 15000
  const REWARD_PER_BLOCK := 1

  /** goverance_node_info. */
  datatype GNode = GNode(payer: Name, staked: int, time: nat, isBp: bool, key: nat, url: string, location: nat)

  type GNodes = map<Name, GNode>

  // ---------------------------------------------------------------- producers

  /** regproducer. */
  function RegProducer(producers: Producers, auths: set<Name>, p: Name, g: GNode): Outcome<Producers> {
    if |g.url| >= 512 then Abort(BadUrl) else
    :- Assert(g.key != 0, BadKey);
    :- Assert(p in auths, MissingAuthority);
    if p in producers then
      Commit(producers[p := producers[p].(key := g.key, active := true, url := g.url, location := g.location)])
    else
      Commit(producers[p := Producer(0.0, g.key, true, g.url, 0, 0, g.location)])
  }

  function Deactivate(producers: Producers, p: Name): Producers
    requires p in producers
  {
    producers[p := producers[p].(key := 0, active := false)]
  }

  /** unregprod. */
  function UnregProd(producers: Producers, auths: set<Name>, p: Name): Outcome<Producers> {
    if p !in auths then Abort(MissingAuthority) else
    :- Assert(p in producers, ProducerMissing);
    Commit(Deactivate(producers, p))
  }

  /** rmvproducer, by the system account. */
  function RmvProducer(producers: Producers, p: Name): Outcome<Producers> {
    if p !in producers then Abort(ProducerMissing) else
    Commit(Deactivate(producers, p))
  }

  // ---------------------------------------------------------------- governance nodes

  /** staketognode. */
  function StakeToGnode(t: Token.State, gs: GNodes, e: Env, payer: Name, owner: Name, key: nat, url: string,
                        location: nat)
    : Outcome<(Token.State, GNodes)>
  {
    if owner in gs then Abort(AlreadyGnode) else
    var t' :- Pay(t, e, payer, BPSTK, GNODE_FEE);
    Commit((t', gs[owner := GNode(payer, GNODE_FEE, e.Now(), false, key, url, location)]))
  }

  /** No proposal still open for voting was made by, or is about, the account. */
  predicate Uninvolved(proposals: map<nat, Polls.Proposal>, owner: Name, now: nat) {
    forall id <- proposals :: Polls.Open(proposals[id], now) ==> proposals[id].owner != owner && proposals[id].account != owner
  }

  /** unstakegnode. */
  function UnstakeGnode(t: Token.State, gs: GNodes, proposals: map<nat, Polls.Proposal>, e: Env, owner: Name)
    : Outcome<(Token.State, GNodes)>
  {
    if owner !in gs then Abort(NotGnode) else
    :- Assert(!gs[owner].isBp, IsProducer);
    :- Assert(Uninvolved(proposals, owner, e.Now()), OpenProposal);
    var t' :- Pay(t, e, BPSTK, gs[owner].payer, gs[owner].staked);
    Commit((t', gs - {owner}))
  }

  /** updategnode. */
  function UpdateGnode(gs: GNodes, owner: Name, key: nat, url: string, location: nat): Outcome<GNodes> {
    if owner !in gs then Abort(NotGnode) else
    :- Assert(!gs[owner].isBp, IsProducer);
    Commit(gs[owner := gs[owner].(key := key, url := url, location := location)])
  }

  // ---------------------------------------------------------------- proposals

  /** multi_index::available_primary_key: one past the largest key. */
  ghost predicate IsAvailable(proposals: map<nat, Polls.Proposal>, id: nat) {
    && (forall k <- proposals :: k < id)
    && (id > 0 ==> id - 1 in proposals)
  }

  /** newproposal. `id` is the key the table hands out. */
  ghost function NewProposal(t: Token.State, gs: GNodes, polls: Polls.Tables, e: Env, owner: Name, account: Name,
                             height: nat, kind: int, consensus: int, id: nat): Outcome<(Token.State, Polls.Tables)>
    requires IsAvailable(polls.proposals, id)
  {
    if owner !in gs then Abort(NotGnode) else
    :- Assert(kind == 1 ==> owner == account, NotOwnAccount);
    :- Assert(kind == 3 ==> consensus == 0 || consensus == 1 || consensus == 2, BadConsensus);
    var t' :- Pay(t, e, owner, PROP, PROPOSAL_FEE);
    var end := e.Now() + 2 * 3600;
    var p := Polls.Proposal(owner, account, e.Now(), end, end + 24 * 3600 * 3, 0, height, kind, false, false, consensus, 0, 0, 0);
    Commit((t', polls.(proposals := polls.proposals[id := p], num := polls.num + 1)))
  }

  /** get_producers_size: a sixteen-bit count. */
  function ProducersSize(producers: Producers): nat { |producers| % 0x1_0000 }

  /** A proposal passes when its lead exceeds a tenth of the present total. */
  predicate Passes(p: Polls.Proposal, stake: int) { p.yeas - p.nays > Trunc(stake, 10) }

  /** What execution changes besides the proposal row; `consensus` records set_consensus_type. */
  datatype Effect = Effect(producers: Producers, gnodes: GNodes, producerNum: int, consensus: int)

  /** The effect of a passed proposal. */
  function Carry(x: Effect, p: Polls.Proposal, auths: set<Name>): Outcome<Effect> {
    if p.kind == 1 then
      :- Assert(p.account in x.gnodes, NotGnode);
      var producers :- RegProducer(x.producers, auths, p.account, x.gnodes[p.account]);
      Commit(x.(producers := producers, producerNum := x.producerNum + 1,
                gnodes := x.gnodes[p.account := x.gnodes[p.account].(isBp := true)]))
    else if p.kind == 2 then
      :- Assert(p.account in x.gnodes, NotGnode);
      var producers :- UnregProd(x.producers, auths, p.account);
      Commit(x.(producers := producers, producerNum := x.producerNum - 1,
                gnodes := x.gnodes[p.account := x.gnodes[p.account].(isBp := false)]))
    else if p.kind == 3 then
      Commit(x.(consensus := p.consensus))
    else
      Commit(x)
  }

  /** execproposal. `auths` are the accounts that authorised the transaction. */
  function ExecProposal(x: Effect, polls: Polls.Tables, e: Env, auths: set<Name>, owner: Name, id: nat)
    : Outcome<(Effect, Polls.Tables)>
  {
    if owner !in x.gnodes then Abort(NotGnode) else
    :- Assert(id in polls.proposals, NoSuchProposal);
    var p := polls.proposals[id];
    :- Assert(ProducersSize(x.producers) > 7 ==> e.Now() > p.voteEnd, NotEnded);
    :- Assert(e.Now() < p.execEnd, ExecElapsed);
    :- Assert(!p.executed, AlreadyExecuted);
    var passes := Passes(p, polls.stake);
    var x' :- if passes then Carry(x, p, auths) else Commit(x);
    var p' := p.(satisfied := p.satisfied || (passes && 1 <= p.kind <= 3), executed := true,
                 execTime := e.Now(), staked := polls.stake);
    Commit((x', polls.(proposals := polls.proposals[id := p'])))
  }

  // ---------------------------------------------------------------- block rewards

  /** total_unpaid_blocks and perblock_bucket. */
  datatype Rewards = Rewards(unpaid: int, bucket: int)

  /** The reward part of onblock: a block by a known producer is counted. */
  function CountBlock(producers: Producers, w: Rewards, producer: Name): (Producers, Rewards) {
    if producer in producers then
      (producers[producer := producers[producer].(unpaid := producers[producer].unpaid + 1)], w.(unpaid := w.unpaid + 1))
    else
      (producers, w)
  }

  /** What a claim pays: guarded by the total, as in the source. */
  function BlockPay(w: Rewards, p: Producer): int {
    if w.unpaid > 0 then REWARD_PER_BLOCK * p.unpaid else 0
  }

  /** claimrewards. */
  function ClaimRewards(t: Token.State, producers: Producers, w: Rewards, stake: int, e: Env, owner: Name)
    : Outcome<(Token.State, Producers, Rewards)>
  {
    if owner !in producers then Abort(ProducerMissing) else
    var p := producers[owner];
    :- Assert(p.active, ProducerInactive);
    :- Assert(stake >= MIN_PROPOSAL_STAKE, NotActivated);
    :- Assert((e.micros - p.lastClaim) % 0x1_0000_0000_0000_0000 > MICROS_PER_DAY, ClaimTooEarly);
    var pay := BlockPay(w, p);
    var t' :- if pay > 0 then Pay(t, e, BLKPAY, owner, pay) else Commit(t);
    Commit((t', producers[owner := p.(lastClaim := e.micros, unpaid := 0)],
            Rewards(w.unpaid - p.unpaid, w.bucket - pay)))
  }
}
