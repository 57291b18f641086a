/** What the actions on governance nodes, rewards and blocks store, and exactly when they commit. */
module GovernanceEffects {
  import opened Base
  import opened Votes
  import Polls
  import Token
  import opened Staking
  import opened StakingLaws
  import opened Governance
  import opened GovernanceLaws
  import A = Auctions
  import B = Blocks

  // ---------------------------------------------------------------- nodes

  /** Only the row of `o` differs. */
  ghost predicate OneNode(gs: GNodes, gs': GNodes, o: Name) {
    && (forall x :: x != o ==> (x in gs <==> x in gs'))
    && (forall x <- gs :: x != o ==> gs[x] == gs'[x])
  }

  /** staketognode commits exactly for an account that is no node yet, if the payer has the fee; the row is what was
      asked for, with the payer and the time. */
  lemma {:induction false} StakeToGnodeIff(t: Token.State, gs: GNodes, e: Env, payer: Name, owner: Name, key: nat,
                                           url: string, location: nat)
    requires Token.Sound(t) && CoreLive(t) && BPSTK in e.accounts
    ensures var r := StakeToGnode(t, gs, e, payer, owner, key, url, location);
      && (r.Commit? <==> owner !in gs && payer != BPSTK && 10000 <= Funds(t, payer))
      && (r.Commit? ==>
            && OneNode(gs, r.value.1, owner) && owner in r.value.1
            && var g := r.value.1[owner];
               && g.payer == payer && g.staked == 10000 && g.time == e.Now() && !g.isBp
               && g.key == key && g.url == url && g.location == location)
  {
    hide Pay, Token.Sound, Funds;
    PayEffect(t, e, payer, BPSTK, GNODE_FEE);
  }

  /** updategnode commits exactly for a node that is no producer, and changes its key, url and location. */
  lemma {:induction false} UpdateGnodeIff(gs: GNodes, owner: Name, key: nat, url: string, location: nat)
    ensures var r := UpdateGnode(gs, owner, key, url, location);
      && (r.Commit? <==> owner in gs && !gs[owner].isBp)
      && (r.Commit? ==>
            && OneNode(gs, r.value, owner) && owner in r.value
            && var g, g' := gs[owner], r.value[owner];
               && g'.payer == g.payer && g'.staked == g.staked && g'.time == g.time && !g'.isBp
               && g'.key == key && g'.url == url && g'.location == location)
  {
  }

  /** unstakegnode removes the row, which was no producer's and is in nobody's open proposal. */
  lemma {:induction false} UnstakeGnodeRemoves(t: Token.State, gs: GNodes, proposals: map<nat, Polls.Proposal>, e: Env,
                                               owner: Name)
    ensures var r := UnstakeGnode(t, gs, proposals, e, owner);
      r.Commit? ==>
        && OneNode(gs, r.value.1, owner) && owner in gs && owner !in r.value.1 && !gs[owner].isBp
        && forall id <- proposals :: e.Now() < proposals[id].voteEnd ==>
             proposals[id].owner != owner && proposals[id].account != owner
  {
    hide Pay;
  }

  /** rmvproducer commits exactly for a registered producer, and makes it inactive without a key. */
  lemma {:induction false} RmvProducerIff(producers: Producers, p: Name)
    ensures var r := RmvProducer(producers, p);
      (r.Commit? <==> p in producers) && (r.Commit? ==> Ousted(producers, r.value, p))
  {
  }

  // ---------------------------------------------------------------- claims

  /** claimrewards commits exactly for an active producer of an activated chain whose last claim is more than a day
      past, if what is due can be paid; it resets the producer's own count and time, and nothing else of any row. */
  lemma {:induction false} ClaimIff(t: Token.State, producers: Producers, w: Rewards, stake: int, e: Env, owner: Name)
    requires Token.Sound(t) && CoreLive(t) && RewardsSound(producers, w)
    ensures var r := ClaimRewards(t, producers, w, stake, e, owner);
      && (r.Commit? <==>
            && owner in producers && producers[owner].active && stake >= 1_000_000
            && (e.micros - producers[owner].lastClaim) % 0x1_0000_0000_0000_0000 > MICROS_PER_DAY
            && (producers[owner].unpaid > 0 ==>
                  owner != BLKPAY && owner in e.accounts && producers[owner].unpaid <= Funds(t, BLKPAY)))
      && (r.Commit? ==>
            && r.value.1.Keys == producers.Keys && (forall p <- producers :: p != owner ==> r.value.1[p] == producers[p])
            && r.value.1[owner] == producers[owner].(lastClaim := r.value.1[owner].lastClaim, unpaid := 0)
            && r.value.1[owner].lastClaim == e.micros
            && r.value.2.unpaid == w.unpaid - producers[owner].unpaid && r.value.2.bucket == w.bucket - producers[owner].unpaid)
  {
    hide Pay, Token.Sound, Funds, Sum;
    if owner in producers {
      PayIsExact(producers, w, owner);
      PayEffect(t, e, BLKPAY, owner, producers[owner].unpaid);
    }
  }

  // ---------------------------------------------------------------- blocks

  /** onblock closes an auction exactly when the chain is activated, schedules were last updated more than two minutes
      ago and a name was last closed more than a day ago, and the first row of the index is open, a day old, and two
      weeks have passed since the first vote. */
  ghost predicate Closes(t: B.Tables, stake: int, num: int, threshold: nat, micros: nat, slot: int, first: Name) {
    && stake >= 1_000_000 && num >= 7
    && (slot - t.clock.schedule) % 0x1_0000_0000 > 240 && (slot - t.clock.nameClose) % 0x1_0000_0000 > 172800
    && first in t.bids && t.bids[first].high > 0 && t.bids[first].time < (micros - MICROS_PER_DAY) % 0x1_0000_0000_0000_0000
    && threshold > 0 && (micros - threshold) % 0x1_0000_0000_0000_0000 > 14 * MICROS_PER_DAY
  }

  /** What a block does: it counts for its producer, keeps the times of the last schedule and close, and closes at most
      the first row of the index. */
  lemma {:induction false} BlockEffect(t: B.Tables, stake: int, num: int, threshold: nat, micros: nat, slot: int,
                                       producer: Name, first: Name)
    requires t.bids != map[] ==> A.IsFirst(t.bids, first)
    ensures var t' := B.OnBlock(t, stake, num, threshold, micros, slot, producer, first);
      var active := stake >= 1_000_000 && num >= 7;
      && t'.producers.Keys == t.producers.Keys
      && (forall p <- t.producers ::
            t'.producers[p] == t.producers[p].(unpaid := t.producers[p].unpaid + if active && p == producer then 1 else 0))
      && t'.rewards == t.rewards.(unpaid := t.rewards.unpaid + if active && producer in t.producers then 1 else 0)
      && t'.clock.fill == (if active && t.clock.fill == 0 then micros else t.clock.fill)
      && t'.clock.schedule == (if active && (slot - t.clock.schedule) % 0x1_0000_0000 > 240 then slot else t.clock.schedule)
      && (Closes(t, stake, num, threshold, micros, slot, first) ==>
            t'.clock.nameClose == slot && t'.bids == t.bids[first := t.bids[first].(high := -t.bids[first].high)])
      && (!Closes(t, stake, num, threshold, micros, slot, first) ==>
            t'.clock.nameClose == t.clock.nameClose && t'.bids == t.bids)
  {
    hide A.IsFirst;
    assert t.bids == map[] ==> first !in t.bids;
    assert t.bids != map[] ==> first in t.bids by { FirstIsRow(t.bids, first); }
  }

  lemma {:induction false} FirstIsRow(bids: A.Bids, first: Name)
    ensures A.IsFirst(bids, first) ==> first in bids
  {
  }
}
