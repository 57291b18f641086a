/** What the cached votes mean: every account's stake counts once, for the producers its chain of proxies ends at. */
module VoteMeaning {
  import opened Base
  import opened Votes
  import opened VoteSums
  import opened VoteExact
  import opened Staking

  // ---------------------------------------------------------------- where a vote ends

  /** The voter whose ballot counts, if every proxy on the way is still registered as one. */
  datatype Seat = Lost | Seat(name: Name)

  ghost function EndOf(b: Book, v: Name): (e: Seat)
    requires Sound(b) && v in b.voters
    ensures e.Seat? ==> e.name in b.voters && b.voters[e.name].proxy == NO_NAME
    decreases Height(Edges(b.voters), v)
  {
    var q := b.voters[v].proxy;
    if q == NO_NAME then Seat(v) else
      Descends(Edges(b.voters), v);
      if b.voters[q].isProxy then EndOf(b, q) else Lost
  }

  /** The account's stake counts for `p`. */
  ghost predicate Backs(b: Book, v: Name, p: Name)
    requires Sound(b) && v in b.voters
  {
    EndOf(b, v).Seat? && p in b.voters[EndOf(b, v).name].producers
  }

  /** The stakes that count for `p`, at the time factor `scale`. */
  ghost function BackingColumn(b: Book, p: Name, scale: real): map<Name, real>
    requires Sound(b)
  {
    map v | v in b.voters :: if Backs(b, v, p) then b.voters[v].staked as real * scale else 0.0
  }

  /** The account has voted for producers or a proxy. */
  predicate HasCast(row: Voter) { row.producers != [] || row.proxy != NO_NAME }

  /** The weight last cast is the present one, for everybody who has cast one but perhaps the accounts in `stale`. */
  ghost predicate Fresh(voters: Voters, scale: real, stale: set<Name>) {
    forall v <- voters :: v !in stale && HasCast(voters[v]) ==> voters[v].last == CurrentWeight(voters[v], scale)
  }

  // ---------------------------------------------------------------- sums over clients

  /** The weight last cast by the clients of the accounts in `qs`. */
  ghost function ClientsOf(voters: Voters, qs: set<Name>): map<Name, real> {
    map u | u in voters :: if voters[u].proxy in qs then voters[u].last else 0.0
  }

  /** Client by client or proxy by proxy, the sum is the same. */
  lemma {:induction false} SumByProxy(voters: Voters, qs: set<Name>)
    requires NO_NAME !in voters
    ensures RSum(map q | q in qs :: ClientSum(voters, NO_NAME, q)) == RSum(ClientsOf(voters, qs))
    decreases |qs|
  {
    hide RSum;
    var m := map q | q in qs :: ClientSum(voters, NO_NAME, q);
    if qs == {} {
      assert m == map[];
      RSumZero(m);
      RSumZero(ClientsOf(voters, qs));
    } else {
      var q :| q in qs;
      var rest := qs - {q};
      SumByProxy(voters, rest);
      RSumRemove(m, q);
      assert m - {q} == map x | x in rest :: ClientSum(voters, NO_NAME, x);
      RSumAdd(ClientsOf(voters, rest), ClientColumn(voters, NO_NAME, q), ClientsOf(voters, qs));
    }
  }

  // ---------------------------------------------------------------- every stake counts once

  /** The proxies whose clients count for `p`. */
  ghost function Carriers(b: Book, p: Name): set<Name>
    requires Sound(b)
  {
    set q | q in b.voters && b.voters[q].isProxy && Backs(b, q, p)
  }

  lemma {:induction false} ClientBacks(b: Book, u: Name, p: Name)
    requires Sound(b) && u in b.voters
    ensures b.voters[u].proxy != NO_NAME ==> (Backs(b, u, p) <==> b.voters[u].proxy in Carriers(b, p))
    ensures b.voters[u].proxy == NO_NAME ==> (Backs(b, u, p) <==> p in b.voters[u].producers) && b.voters[u].proxy !in Carriers(b, p)
    ensures p in b.voters[u].producers ==> b.voters[u].proxy == NO_NAME
    ensures Backs(b, u, p) ==> HasCast(b.voters[u])
  {
    hide Acyclic;
    assert RowSound(b.voters[u]);
    if b.voters[u].proxy != NO_NAME { Descends(Edges(b.voters), u); }
  }

  /** The weights last cast that count for `p`, and the parts they consist of. */
  ghost function CastColumn(b: Book, p: Name): map<Name, real>
    requires Sound(b)
  {
    map v | v in b.voters :: if Backs(b, v, p) then b.voters[v].last else 0.0
  }

  ghost function ProxiedColumn(b: Book, p: Name): map<Name, real>
    requires Sound(b)
  {
    map v | v in b.voters :: if v in Carriers(b, p) then b.voters[v].proxied else 0.0
  }

  lemma {:induction false} CastParts(b: Book, p: Name, scale: real)
    requires Sound(b) && Fresh(b.voters, scale, {})
    ensures RSum(CastColumn(b, p)) == RSum(BackingColumn(b, p, scale)) + RSum(ProxiedColumn(b, p))
  {
    hide RSum, Backs, Sound;
    forall v | v in b.voters
      ensures CastColumn(b, p)[v] == BackingColumn(b, p, scale)[v] + ProxiedColumn(b, p)[v]
    {
      ClientBacks(b, v, p);
    }
    RSumAdd(BackingColumn(b, p, scale), ProxiedColumn(b, p), CastColumn(b, p));
  }

  lemma {:induction false} CastSplit(b: Book, p: Name)
    requires Sound(b)
    ensures RSum(CastColumn(b, p)) == BallotSum(b.voters, NO_NAME, p) + RSum(ClientsOf(b.voters, Carriers(b, p)))
  {
    hide RSum, Backs, Carriers;
    forall v | v in b.voters
      ensures CastColumn(b, p)[v] == BallotColumn(b.voters, NO_NAME, p)[v] + ClientsOf(b.voters, Carriers(b, p))[v]
    {
      ClientBacks(b, v, p);
    }
    RSumAdd(BallotColumn(b.voters, NO_NAME, p), ClientsOf(b.voters, Carriers(b, p)), CastColumn(b, p));
  }

  lemma {:induction false} ProxiedIsClients(b: Book, p: Name)
    requires Sound(b) && Exact(b)
    ensures RSum(ProxiedColumn(b, p)) == RSum(ClientsOf(b.voters, Carriers(b, p)))
  {
    hide RSum, Backs;
    var qs := Carriers(b, p);
    var m := map q | q in qs :: ClientSum(b.voters, NO_NAME, q);
    forall q | q in qs ensures b.voters[q].proxied == m[q] { assert ProxyGap(b, NO_NAME, q) == 0.0; }
    RSumWithin(ProxiedColumn(b, p), m);
    SumByProxy(b.voters, qs);
  }

  /** In an exact book whose cast weights are up to date, the votes of a producer are the stakes, at the time factor, of
      exactly the accounts whose chain of registered proxies ends at a ballot that names it: each counts once, however
      long the chain. */
  lemma {:induction false} VotesMeaning(b: Book, p: Name, scale: real)
    requires Clean(b) && Fresh(b.voters, scale, {}) && p in b.producers
    ensures b.producers[p].votes == RSum(BackingColumn(b, p, scale))
  {
    hide RSum, Fresh, BackingColumn, CastColumn, ProxiedColumn, Carriers, Acyclic;
    assert ProducerGap(b, NO_NAME, p) == 0.0;
    CastParts(b, p, scale);
    CastSplit(b, p);
    ProxiedIsClients(b, p);
  }

  // ---------------------------------------------------------------- cast weights stay up to date

  /** The walk brings everybody it visits up to date, whatever it drops. */
  lemma {:induction false} WalkFresh(b: Book, v: Name, scale: real, stale: set<Name>)
    requires Sound(b) && v in b.voters && Fresh(b.voters, scale, stale + {v})
    ensures Fresh(Walk(b, v, scale).book.voters, scale, stale)
    decreases Height(Edges(b.voters), v)
  {
    hide Acyclic;
    if !Small(Drift(b, v, scale)) && b.voters[v].proxy != NO_NAME {
      PassOnSound(b, v, scale);
      WalkFresh(PassOn(b, v, scale), b.voters[v].proxy, scale, stale);
    }
  }

  lemma {:induction false} ShiftFresh(b: Book, q: Name, d: real, scale: real, stale: set<Name>)
    requires Sound(b) && q in b.voters && Fresh(b.voters, scale, stale)
    ensures Fresh(Shift(b, q, d, scale).book.voters, scale, stale)
  {
    hide Walk, Acyclic;
    SameBallotsKeepsSound(b, Bump(b, q, d));
    WalkFresh(Bump(b, q, d), q, scale, stale);
  }

  /** The voter's own row is off the way of both propagations. */
  lemma {:induction false} OwnRowStays(b: Book, v: Name, proxy: Name, voting: bool, scale: real)
    requires Sound(b) && v in b.voters && proxy != v && (!voting ==> proxy == b.voters[v].proxy)
    requires Leave(b, b.voters[v], scale).Commit?
    requires Join(Leave(b, b.voters[v], scale).value, proxy, CurrentWeight(b.voters[v], scale), voting, scale).Commit?
    ensures var b1 := Leave(b, b.voters[v], scale).value;
      var b2 := Join(b1, proxy, CurrentWeight(b.voters[v], scale), voting, scale).value;
      v in b1.voters && b1.voters[v] == b.voters[v] && v in b2.voters && b2.voters[v] == b.voters[v]
  {
    hide Walk, OnChain, Acyclic, CurrentWeight, Shift;
    var row := b.voters[v];
    if row.proxy != NO_NAME {
      ProxyExists(b, v);
      ShiftOffChain(b, row.proxy, -row.last, scale, v);
    }
    var b1 := Leave(b, row, scale).value;
    if proxy != NO_NAME {
      NewProxyOffChain(b1, v, proxy, voting);
      ShiftOffChain(b1, proxy, CurrentWeight(row, scale), scale, v);
    }
  }

  lemma {:induction false} LeaveFresh(b: Book, row: Voter, scale: real, stale: set<Name>)
    requires Sound(b) && Fresh(b.voters, scale, stale)
    ensures var r := Leave(b, row, scale); r.Commit? ==> Fresh(r.value.voters, scale, stale)
  {
    hide Shift, Fresh, Acyclic;
    if row.proxy in b.voters { ShiftFresh(b, row.proxy, -row.last, scale, stale); }
  }

  lemma {:induction false} JoinFresh(b: Book, proxy: Name, w: real, voting: bool, scale: real, stale: set<Name>)
    requires Sound(b) && Fresh(b.voters, scale, stale)
    ensures var r := Join(b, proxy, w, voting, scale); r.Commit? ==> Fresh(r.value.voters, scale, stale)
  {
    hide Shift, Fresh, Acyclic;
    if proxy in b.voters { ShiftFresh(b, proxy, w, scale, stale); }
  }

  /** update_votes brings its voter up to date and leaves nobody behind. */
  lemma {:induction false} VoteFresh(b: Book, v: Name, proxy: Name, producers: seq<Name>, voting: bool, scale: real)
    requires Sound(b) && Fresh(b.voters, scale, {v}) && (!voting ==> v in b.voters && proxy == b.voters[v].proxy)
    ensures var r := UpdateVotes(b, v, proxy, producers, voting, scale); r.Commit? ==> Fresh(r.value.voters, scale, {})
  {
    hide Walk, OnChain, Shift, Acyclic, Leave, Join, Recast;
    var r := UpdateVotes(b, v, proxy, producers, voting, scale);
    if r.Commit? {
      var row := b.voters[v];
      var w := CurrentWeight(row, scale);
      LeaveFresh(b, row, scale, {v});
      var b1 := Leave(b, row, scale).value;
      JoinFresh(b1, proxy, w, voting, scale, {v});
      OwnRowStays(b, v, proxy, voting, scale);
    }
  }

  lemma {:induction false} FlagFresh(b: Book, v: Name, isProxy: bool, scale: real)
    requires Sound(b) && v != NO_NAME && Fresh(b.voters, scale, {})
    ensures var r := RegProxy(b, v, isProxy, scale); r.Commit? ==> Fresh(r.value.voters, scale, {})
  {
    hide Walk, Acyclic;
    if v in b.voters && (isProxy ==> b.voters[v].proxy == NO_NAME) {
      FlagSound(b, v, isProxy);
      WalkFresh(Flag(b, v, isProxy), v, scale, {});
    }
  }

  /** A change of stake re-applies the vote of the account, so that its weight is up to date again. */
  lemma {:induction false} StakeFresh(b: Book, e: Env, from: Name, d: int)
    requires Sound(b) && from != NO_NAME && Fresh(b.voters, e.scale, {})
    ensures var r := StakeVotes(b, e, from, d); r.Commit? ==> Fresh(r.value.voters, e.scale, {})
  {
    hide Sound, UpdateVotes, Vested;
    var added := AddStake(b, from, d, e.Now());
    if added.Commit? {
      AddStakeSound(b, from, d, e.Now());
      var b1 := added.value;
      assert Fresh(b1.voters, e.scale, {from});
      if HasVote(b1, from) { VoteFresh(b1, from, b1.voters[from].proxy, b1.voters[from].producers, false, e.scale); }
    }
  }
}
