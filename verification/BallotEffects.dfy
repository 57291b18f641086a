/** What a vote, a registration and a change of stake store in the voters table. */
module BallotEffects {
  import opened Base
  import opened Votes
  import opened VoteSums
  import opened VoteExact
  import opened Staking

  /** What a voter has asked for: a proxy, a list of producers, and to be a proxy or not. */
  datatype Wish = Wish(proxy: Name, producers: seq<Name>, isProxy: bool)

  function WishOf(voters: Voters, v: Name): Wish {
    if v in voters then Wish(voters[v].proxy, voters[v].producers, voters[v].isProxy) else Wish(NO_NAME, [], false)
  }

  /** Only the wish of `v` differs. */
  ghost predicate OneWish(voters: Voters, voters': Voters, v: Name) {
    forall u: Name {:trigger WishOf(voters', u)} :: u != v ==> WishOf(voters', u) == WishOf(voters, u)
  }

  /** update_votes stores the ballot asked for with the voter's present weight, and nobody else's changes. */
  lemma {:induction false} VoteStored(b: Book, v: Name, proxy: Name, producers: seq<Name>, voting: bool, scale: real)
    requires Sound(b)
    ensures var r := UpdateVotes(b, v, proxy, producers, voting, scale);
      r.Commit? ==>
        && v in b.voters && r.value.voters.Keys == b.voters.Keys
        && WishOf(r.value.voters, v) == Wish(proxy, producers, b.voters[v].isProxy)
        && r.value.voters[v].last == CurrentWeight(b.voters[v], scale)
        && OneWish(b.voters, r.value.voters, v)
  {
    hide Leave, Join, Elect, Sound, CurrentWeight;
  }

  /** Whatever the tables hold, update_votes leaves no producer that gains or loses the voter's ballot with negative
      votes. */
  lemma {:induction false} VotesNotNegative(b: Book, v: Name, proxy: Name, producers: seq<Name>, voting: bool,
                                            scale: real, p: Name)
    requires Sound(b) && UpdateVotes(b, v, proxy, producers, voting, scale).Commit?
    ensures v in b.voters
    ensures var b', row := UpdateVotes(b, v, proxy, producers, voting, scale).value, b.voters[v];
      && b'.producers.Keys == b.producers.Keys
      && (p in b.producers && row.proxy == NO_NAME && row.last > 0.0 && p in row.producers ==> b'.producers[p].votes >= 0.0)
      && (p in b.producers && CurrentWeight(row, scale) >= 0.0 && p in producers ==> b'.producers[p].votes >= 0.0)
  {
    hide Leave, Join, Elect, Sound, CurrentWeight;
    var row := b.voters[v];
    var w := CurrentWeight(row, scale);
    var b2 := Join(Leave(b, row, scale).value, proxy, w, voting, scale).value;
    if p in b.producers { ElectNotNegative(b2, row, producers, w, voting, p); }
  }

  lemma {:induction false} ElectNotNegative(b: Book, row: Voter, producers: seq<Name>, w: real, voting: bool, p: Name)
    requires Elect(b, row, producers, w, voting).Commit? && p in b.producers
    ensures var b' := Elect(b, row, producers, w, voting).value;
      && p in b'.producers
      && (row.proxy == NO_NAME && row.last > 0.0 && p in row.producers ==> b'.producers[p].votes >= 0.0)
      && (w >= 0.0 && p in producers ==> b'.producers[p].votes >= 0.0)
  {
    hide RSum;
  }

  /** regproxy stores the flag asked for, and nobody else's ballot changes. */
  lemma {:induction false} FlagStored(b: Book, v: Name, isProxy: bool, scale: real)
    requires Sound(b) && v != NO_NAME
    ensures var r := RegProxy(b, v, isProxy, scale);
      r.Commit? ==>
        && r.value.voters.Keys == b.voters.Keys + {v}
        && WishOf(r.value.voters, v) == WishOf(b.voters, v).(isProxy := isProxy)
        && OneWish(b.voters, r.value.voters, v)
  {
    hide Sound, Walk, Acyclic;
    if v in b.voters && (isProxy ==> b.voters[v].proxy == NO_NAME) { FlagSound(b, v, isProxy); }
  }

  /** A change of stake repeats what is stored. */
  lemma {:induction false} StakeKeepsWishes(b: Book, e: Env, from: Name, d: int)
    requires Sound(b) && from != NO_NAME
    ensures var r := StakeVotes(b, e, from, d);
      r.Commit? ==>
        && r.value.voters.Keys == b.voters.Keys + {from}
        && forall u: Name {:trigger WishOf(r.value.voters, u)} :: WishOf(r.value.voters, u) == WishOf(b.voters, u)
  {
    hide Sound, UpdateVotes, Vested;
    var added := AddStake(b, from, d, e.Now());
    if added.Commit? {
      AddStakeSound(b, from, d, e.Now());
      var b1 := added.value;
      if HasVote(b1, from) { VoteStored(b1, from, b1.voters[from].proxy, b1.voters[from].producers, false, e.scale); }
    }
  }

  // ---------------------------------------------------------------- when they commit

  /** Every producer named is registered, and active. */
  ghost predicate Standing(producers: seq<Name>, ps: Producers) { forall p <- producers :: p in ps && ps[p].active }

  /** With every stored ballot registered, voteproducer commits exactly when the ballot is well formed, the voter has
      a row, a proxy is used only by an account that is none and is a registered one, and, unless the voter's weight
      is negative, every producer named is active: no propagation can fail. */
  lemma {:induction false} VoteIff(b: Book, v: Name, proxy: Name, producers: seq<Name>, scale: real)
    requires Sound(b) && Listed(b)
    ensures UpdateVotes(b, v, proxy, producers, true, scale).Commit? <==>
      && |producers| <= 30 && Increasing(producers) && v in b.voters
      && (proxy != NO_NAME ==> producers == [] && !b.voters[v].isProxy && proxy in b.voters && b.voters[proxy].isProxy)
      && (CurrentWeight(b.voters[v], scale) >= 0.0 ==> Standing(producers, b.producers))
  {
    hide Walk, OnChain, Shift, Acyclic, Edges, SetBallot, Recast, CurrentWeight, Trail, Listed;
    if v in b.voters {
      var row := b.voters[v];
      var w := CurrentWeight(row, scale);
      assert RowSound(row);
      if row.proxy != NO_NAME {
        ProxyExists(b, v);
        ListedDelivers(b, row.proxy, -row.last, scale);
      }
      var left := Leave(b, row, scale);
      if left.Commit? && proxy in b.voters {
        SameListed(b, left.value);
        ListedDelivers(left.value, proxy, w, scale);
      }
    }
  }

  lemma {:induction false} ListedDelivers(b: Book, n: Name, d: real, scale: real)
    requires Sound(b) && Listed(b) && n in b.voters
    ensures Shift(b, n, d, scale).delivered
  {
    hide Walk, OnChain, Acyclic, Edges, CurrentWeight;
    ShiftTrail(b, n, d, scale);
    ListedArrives(b, Trail(b, n, Arriving(b, n, d, scale), scale));
  }

  /** With every stored ballot registered, regproxy commits exactly when the flag changes and no account that uses a
      proxy becomes one; an account without a row gets one. */
  lemma {:induction false} FlagIff(b: Book, v: Name, isProxy: bool, scale: real)
    requires Sound(b) && Listed(b) && v != NO_NAME
    ensures RegProxy(b, v, isProxy, scale).Commit? <==>
      (v in b.voters ==> isProxy != b.voters[v].isProxy && (isProxy ==> b.voters[v].proxy == NO_NAME))
  {
    hide Walk, OnChain, Acyclic, CurrentWeight;
    if v in b.voters && (isProxy ==> b.voters[v].proxy == NO_NAME) {
      FlagSound(b, v, isProxy);
      var flagged := Flag(b, v, isProxy);
      forall u | u in flagged.voters ensures Registered(flagged.voters[u].producers, flagged.producers) {
        assert Registered(b.voters[u].producers, b.producers);
      }
      WalkDelivered(flagged, v, scale);
    }
  }
}
