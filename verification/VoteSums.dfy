/** The cached vote sums against a recount. A gap is a cached sum minus its recount; `hole` is a
    voter left out of the recount while update_votes is moving that voter's weight (NO_NAME for
    nobody). */
module VoteSums {
  import opened Base
  import opened Votes

  function ClientShare(row: Voter, u: Name, hole: Name, q: Name): real {
    if u != hole && row.proxy == q then row.last else 0.0
  }

  ghost function ClientColumn(voters: Voters, hole: Name, q: Name): map<Name, real> {
    map u | u in voters :: ClientShare(voters[u], u, hole, q)
  }

  /** The weight last cast by the voters who use `q` as their proxy. */
  ghost function ClientSum(voters: Voters, hole: Name, q: Name): real {
    RSum(ClientColumn(voters, hole, q))
  }

  function BallotShare(row: Voter, u: Name, hole: Name, p: Name): real {
    if u != hole && p in row.producers then row.last else 0.0
  }

  ghost function BallotColumn(voters: Voters, hole: Name, p: Name): map<Name, real> {
    map u | u in voters :: BallotShare(voters[u], u, hole, p)
  }

  /** The weight last cast by the voters with `p` on their ballot. */
  ghost function BallotSum(voters: Voters, hole: Name, p: Name): real {
    RSum(BallotColumn(voters, hole, p))
  }

  ghost function ProxyGap(b: Book, hole: Name, q: Name): real
    requires q in b.voters
  {
    b.voters[q].proxied - ClientSum(b.voters, hole, q)
  }

  ghost function ProducerGap(b: Book, hole: Name, p: Name): real
    requires p in b.producers
  {
    b.producers[p].votes - BallotSum(b.voters, hole, p)
  }

  ghost function VoteColumn(producers: Producers): map<Name, real> {
    map p | p in producers :: producers[p].votes
  }

  ghost function VoteTotal(producers: Producers): real { RSum(VoteColumn(producers)) }

  // ---------------------------------------------------------------- one row changes

  lemma {:induction false} ClientSumRow(voters: Voters, hole: Name, q: Name, v: Name, row: Voter)
    ensures ClientSum(voters[v := row], hole, q)
         == ClientSum(voters, hole, q) - (if v in voters then ClientShare(voters[v], v, hole, q) else 0.0)
            + ClientShare(row, v, hole, q)
  {
    var voters' := voters[v := row];
    RSumChange(ClientColumn(voters, hole, q), ClientColumn(voters', hole, q), v);
  }

  lemma {:induction false} BallotSumRow(voters: Voters, hole: Name, p: Name, v: Name, row: Voter)
    ensures BallotSum(voters[v := row], hole, p)
         == BallotSum(voters, hole, p) - (if v in voters then BallotShare(voters[v], v, hole, p) else 0.0)
            + BallotShare(row, v, hole, p)
  {
    var voters' := voters[v := row];
    RSumChange(BallotColumn(voters, hole, p), BallotColumn(voters', hole, p), v);
  }

  /** Leaving `v` out of the recount removes exactly `v`'s share. */
  lemma {:induction false} HoleMoves(voters: Voters, v: Name, q: Name, p: Name)
    requires v in voters && NO_NAME !in voters
    ensures ClientSum(voters, v, q) == ClientSum(voters, NO_NAME, q) - ClientShare(voters[v], v, NO_NAME, q)
    ensures BallotSum(voters, v, p) == BallotSum(voters, NO_NAME, p) - BallotShare(voters[v], v, NO_NAME, p)
  {
    RSumChange(ClientColumn(voters, NO_NAME, q), ClientColumn(voters, v, q), v);
    RSumChange(BallotColumn(voters, NO_NAME, p), BallotColumn(voters, v, p), v);
  }

  // ---------------------------------------------------------------- propagation and the gaps

  lemma {:induction false} SetLastGaps(b: Book, v: Name, w: real, hole: Name, q: Name, p: Name)
    requires v in b.voters && v != hole
    ensures q in b.voters ==>
      ProxyGap(SetLast(b, v, w), hole, q)
      == ProxyGap(b, hole, q) - if b.voters[v].proxy == q then w - b.voters[v].last else 0.0
    ensures p in b.producers ==>
      ProducerGap(SetLast(b, v, w), hole, p)
      == ProducerGap(b, hole, p) - if p in b.voters[v].producers then w - b.voters[v].last else 0.0
  {
    ClientSumRow(b.voters, hole, q, v, b.voters[v].(last := w));
    BallotSumRow(b.voters, hole, p, v, b.voters[v].(last := w));
  }

  lemma {:induction false} BumpGaps(b: Book, n: Name, d: real, hole: Name, q: Name, p: Name)
    requires n in b.voters
    ensures q in b.voters ==>
      ProxyGap(Bump(b, n, d), hole, q) == ProxyGap(b, hole, q) + if q == n then d else 0.0
    ensures p in b.producers ==> ProducerGap(Bump(b, n, d), hole, p) == ProducerGap(b, hole, p)
  {
    var row := b.voters[n].(proxied := b.voters[n].proxied + d);
    ClientSumRow(b.voters, hole, q, n, row);
    BallotSumRow(b.voters, hole, p, n, row);
  }

  lemma {:induction false} PassOnKeepsGaps(b: Book, v: Name, scale: real, hole: Name, q: Name, p: Name)
    requires v in b.voters && b.voters[v].proxy in b.voters && v != hole
    requires b.voters[v].producers == []
    ensures q in b.voters ==> ProxyGap(PassOn(b, v, scale), hole, q) == ProxyGap(b, hole, q)
    ensures p in b.producers ==> ProducerGap(PassOn(b, v, scale), hole, p) == ProducerGap(b, hole, p)
  {
    var w := CurrentWeight(b.voters[v], scale);
    SetLastGaps(b, v, w, hole, q, p);
    BumpGaps(SetLast(b, v, w), b.voters[v].proxy, Drift(b, v, scale), hole, q, p);
  }

  /** Along the whole walk every proxied weight keeps its gap, except that the change dropped at
      the last voter of the walk is missing from that voter's proxy. */
  lemma {:induction false} PropagateProxyGap(b: Book, v: Name, scale: real, hole: Name, q: Name)
    requires Sound(b) && v in b.voters && q in b.voters
    requires !OnChain(Edges(b.voters), v, hole)
    ensures var c := Walk(b, v, scale);
      ProxyGap(Walk(b, v, scale).book, hole, q)
      == ProxyGap(b, hole, q) - (if b.voters[c.stop].proxy == q then c.cut else 0.0)
    decreases Height(Edges(b.voters), v)
  {
    if !Small(Drift(b, v, scale)) && b.voters[v].proxy != NO_NAME {
      PassOnSound(b, v, scale);
      assert RowSound(b.voters[v]);
      PassOnKeepsGaps(b, v, scale, hole, q, NO_NAME);
      PropagateProxyGap(PassOn(b, v, scale), b.voters[v].proxy, scale, hole, q);
    } else {
      ClientSumRow(b.voters, hole, q, v, b.voters[v].(last := CurrentWeight(b.voters[v], scale)));
    }
  }

  /** The same for every producer's votes. */
  lemma {:induction false} PropagateProducerGap(b: Book, v: Name, scale: real, hole: Name, p: Name)
    requires Sound(b) && v in b.voters && p in b.producers
    requires !OnChain(Edges(b.voters), v, hole)
    ensures var c := Walk(b, v, scale);
      ProducerGap(Walk(b, v, scale).book, hole, p)
      == ProducerGap(b, hole, p) - (if p in b.voters[c.stop].producers then c.cut else 0.0)
    decreases Height(Edges(b.voters), v)
  {
    if !Small(Drift(b, v, scale)) && b.voters[v].proxy != NO_NAME {
      PassOnSound(b, v, scale);
      assert RowSound(b.voters[v]);
      PassOnKeepsGaps(b, v, scale, hole, NO_NAME, p);
      PropagateProducerGap(PassOn(b, v, scale), b.voters[v].proxy, scale, hole, p);
    } else {
      BallotSumRow(b.voters, hole, p, v, b.voters[v].(last := CurrentWeight(b.voters[v], scale)));
    }
  }

  lemma {:induction false} VoteTotalRow(producers: Producers, producers': Producers, p: Name, d: real)
    requires producers'.Keys == producers.Keys && p in producers
    requires forall x <- producers :: x != p ==> producers'[x].votes == producers[x].votes
    requires producers'[p].votes == producers[p].votes + d
    ensures VoteTotal(producers') == VoteTotal(producers) + d
  {
    RSumChange(VoteColumn(producers), VoteColumn(producers'), p);
  }

  lemma {:induction false} AddVotesLast(b: Book, rest: seq<Name>, p: Name, d: real)
    requires p in b.producers && p !in rest
    ensures VoteTotal(AddVotes(b, rest + [p], d).producers) == VoteTotal(AddVotes(b, rest, d).producers) + d
    ensures AddVotes(b, rest + [p], d).weight == AddVotes(b, rest, d).weight + d
  {
    assert forall x :: x in rest + [p] <==> x in rest || x == p;
    VoteTotalRow(AddVotes(b, rest, d).producers, AddVotes(b, rest + [p], d).producers, p, d);
  }

  lemma {:induction false} AddVotesTotal(b: Book, ps: seq<Name>, d: real)
    requires Increasing(ps) && Registered(ps, b.producers)
    ensures AddVotes(b, ps, d).weight - VoteTotal(AddVotes(b, ps, d).producers)
         == b.weight - VoteTotal(b.producers)
    decreases |ps|
  {
    if ps == [] {
      assert AddVotes(b, ps, d).producers == b.producers;
    } else {
      var p, rest := ps[|ps| - 1], ps[..|ps| - 1];
      AddVotesTotal(b, rest, d);
      assert ps == rest + [p];
      AddVotesLast(b, rest, p, d);
    }
  }

  /** total_producer_vote_weight moves exactly with the sum of the producers' votes. */
  lemma {:induction false} PropagateTotal(b: Book, v: Name, scale: real)
    requires Sound(b) && v in b.voters && Walk(b, v, scale).delivered
    ensures Walk(b, v, scale).book.weight - VoteTotal(Walk(b, v, scale).book.producers)
         == b.weight - VoteTotal(b.producers)
    decreases Height(Edges(b.voters), v)
  {
    if !Small(Drift(b, v, scale)) && b.voters[v].proxy != NO_NAME {
      PassOnSound(b, v, scale);
      PropagateTotal(PassOn(b, v, scale), b.voters[v].proxy, scale);
    } else {
      StopTotal(b, v, scale);
    }
  }

  lemma {:induction false} StopTotal(b: Book, v: Name, scale: real)
    requires v in b.voters && RowSound(b.voters[v])
    requires Small(Drift(b, v, scale)) || Registered(b.voters[v].producers, b.producers)
    ensures Stop(b, v, scale).weight - VoteTotal(Stop(b, v, scale).producers)
         == b.weight - VoteTotal(b.producers)
  {
    if !Small(Drift(b, v, scale)) {
      AddVotesTotal(SetLast(b, v, CurrentWeight(b.voters[v], scale)), b.voters[v].producers, Drift(b, v, scale));
    }
  }

  // ---------------------------------------------------------------- exact books

  ghost predicate Exact(b: Book) {
    && (forall q <- b.voters {:trigger ProxyGap(b, NO_NAME, q)} :: ProxyGap(b, NO_NAME, q) == 0.0)
    && (forall p <- b.producers {:trigger ProducerGap(b, NO_NAME, p)} :: ProducerGap(b, NO_NAME, p) == 0.0)
    && b.weight == VoteTotal(b.producers)
  }

  ghost predicate Solvent(voters: Voters) {
    forall v <- voters :: voters[v].last >= 0.0 && voters[v].staked >= 0
  }

  ghost predicate Listed(b: Book) {
    forall v <- b.voters {:trigger Registered(b.voters[v].producers, b.producers)} ::
      Registered(b.voters[v].producers, b.producers)
  }

  /** A sound book whose every cached sum equals its recount. */
  ghost predicate Clean(b: Book) { Sound(b) && Solvent(b.voters) && Listed(b) && Exact(b) }

  // ---------------------------------------------------------------- the change that is dropped

  /** Where a change of weight comes to rest: the voter it reaches last, and the change that arrives there. */
  datatype Rest = Rest(stop: Name, change: real) {
    /** The part of it that nobody is told: the "small changes" test drops it. */
    function Dropped(): real { if Small(change) then change else 0.0 }
  }

  /** What the tables before a propagation say about it: a change `d` of `v`'s weight passes from voter to
      proxy, each adding its own drift and only a registered proxy taking up what arrives, until it is small
      or there is no further proxy. */
  ghost function Trail(b: Book, v: Name, d: real, scale: real): (r: Rest)
    requires Sound(b) && v in b.voters
    ensures r.stop in b.voters
    decreases Height(Edges(b.voters), v)
  {
    if Small(d) || b.voters[v].proxy == NO_NAME then Rest(v, d) else
      Descends(Edges(b.voters), v);
      var n := b.voters[v].proxy;
      Trail(b, n, Arriving(b, n, d, scale), scale)
  }

  /** The change of `n`'s weight when one of its clients changes by `d`. */
  function Arriving(b: Book, n: Name, d: real, scale: real): real
    requires n in b.voters
  {
    Drift(b, n, scale) + if b.voters[n].isProxy then d else 0.0
  }

  /** The change arrives at registered producers, or is dropped. */
  ghost predicate Delivers(b: Book, r: Rest)
    requires r.stop in b.voters
  {
    Small(r.change) || Registered(b.voters[r.stop].producers, b.producers)
  }

  /** Only the rows further down the chain matter. */
  lemma {:induction false} TrailSame(b: Book, b': Book, v: Name, d: real, scale: real)
    requires Sound(b) && Sound(b') && v in b.voters && Edges(b'.voters) == Edges(b.voters)
    requires forall x | x in b.voters && x != v && OnChain(Edges(b.voters), v, x) :: x in b'.voters && b'.voters[x] == b.voters[x]
    ensures v in b'.voters && Trail(b', v, d, scale) == Trail(b, v, d, scale)
    decreases Height(Edges(b.voters), v)
  {
    var g := Edges(b.voters);
    assert v in g && v in Edges(b'.voters) && g[v] == b.voters[v].proxy == b'.voters[v].proxy;
    if !Small(d) && b.voters[v].proxy != NO_NAME {
      Descends(g, v);
      var n := b.voters[v].proxy;
      assert OnChain(g, v, n) && n != v;
      forall x | x in b.voters && x != n && OnChain(g, n, x) ensures x in b'.voters && b'.voters[x] == b.voters[x] {
        ChainDescends(g, n, x);
        assert OnChain(g, v, x) && x != v;
      }
      TrailSame(b, b', n, Arriving(b, n, d, scale), scale);
    }
  }

  /** The walk stops where, drops what and is delivered as the tables before it say. */
  lemma {:induction false} WalkTrail(b: Book, v: Name, scale: real)
    requires Sound(b) && v in b.voters
    ensures var w, r := Walk(b, v, scale), Trail(b, v, Drift(b, v, scale), scale);
      w.stop == r.stop && w.cut == r.Dropped() && (w.delivered <==> Delivers(b, r))
    decreases Height(Edges(b.voters), v)
  {
    var d, n := Drift(b, v, scale), b.voters[v].proxy;
    if !Small(d) && n != NO_NAME {
      PassOnSound(b, v, scale);
      var b' := PassOn(b, v, scale);
      WalkTrail(b', n, scale);
      assert Drift(b', n, scale) == Arriving(b, n, d, scale);
      PassOnTrail(b, v, scale);
      var r := Trail(b', n, Drift(b', n, scale), scale);
      assert b'.voters[r.stop].producers == b.voters[r.stop].producers;
    }
  }

  lemma {:induction false} PassOnTrail(b: Book, v: Name, scale: real)
    requires Sound(b) && v in b.voters && b.voters[v].proxy != NO_NAME
    ensures b.voters[v].proxy in b.voters && b.voters[v].proxy != v
    ensures var b', n := PassOn(b, v, scale), b.voters[v].proxy;
      Sound(b') && forall d: real :: Trail(b', n, d, scale) == Trail(b, n, d, scale)
  {
    PassOnSound(b, v, scale);
    var b', n, g := PassOn(b, v, scale), b.voters[v].proxy, Edges(b.voters);
    forall x | x in b.voters && x != n && OnChain(g, n, x) ensures x in b'.voters && b'.voters[x] == b.voters[x] {
      ChainDescends(g, n, x);
    }
    forall d: real ensures Trail(b', n, d, scale) == Trail(b, n, d, scale) { TrailSame(b, b', n, d, scale); }
  }

  /** The same for the walk of update_votes, which first moves `n`'s proxied weight by `d`. */
  lemma {:induction false} ShiftTrail(b: Book, n: Name, d: real, scale: real)
    requires Sound(b) && n in b.voters
    ensures var w, r := Shift(b, n, d, scale), Trail(b, n, Arriving(b, n, d, scale), scale);
      w.stop == r.stop && w.cut == r.Dropped() && (w.delivered <==> Delivers(b, r))
  {
    var b' := Bump(b, n, d);
    SameBallotsKeepsSound(b, b');
    WalkTrail(b', n, scale);
    assert Drift(b', n, scale) == Arriving(b, n, d, scale);
    TrailSame(b, b', n, Arriving(b, n, d, scale), scale);
    var r := Trail(b, n, Arriving(b, n, d, scale), scale);
    assert b'.voters[r.stop].producers == b.voters[r.stop].producers;
  }

  /** What is missing from `q`'s proxied weight, and from `p`'s votes, once a change has come to rest. */
  function MissingWeight(b: Book, r: Rest, q: Name): real {
    if r.stop in b.voters && b.voters[r.stop].proxy == q then r.Dropped() else 0.0
  }

  function MissingVotes(b: Book, r: Rest, p: Name): real {
    if r.stop in b.voters && p in b.voters[r.stop].producers then r.Dropped() else 0.0
  }

  /** The change dropped is zero or would have reached nobody. */
  ghost predicate Harmless(b: Book, r: Rest)
    requires r.stop in b.voters
  {
    r.Dropped() == 0.0
    || (b.voters[r.stop].proxy == NO_NAME && forall p <- b.voters[r.stop].producers :: p !in b.producers)
  }

  /** Nothing came to rest, or what was dropped is harmless. */
  ghost predicate Benign(b: Book, r: Rest) { r.stop in b.voters ==> Harmless(b, r) }

  lemma {:induction false} BenignMisses(b: Book, r: Rest)
    requires Sound(b) && Benign(b, r)
    ensures forall q <- b.voters :: MissingWeight(b, r, q) == 0.0
    ensures forall p <- b.producers :: MissingVotes(b, r, p) == 0.0
  {
    hide Sound, Harmless;
    if r.stop in b.voters { HarmlessIff(b, r); }
  }

  lemma {:induction false} HarmlessIff(b: Book, r: Rest)
    requires Sound(b) && r.stop in b.voters
    ensures Harmless(b, r) <==>
      && (forall q <- b.voters :: MissingWeight(b, r, q) == 0.0)
      && (forall p <- b.producers :: MissingVotes(b, r, p) == 0.0)
  {
    var n := b.voters[r.stop];
    if r.Dropped() != 0.0 {
      if n.proxy != NO_NAME {
        ProxyExists(b, r.stop);
        assert MissingWeight(b, r, n.proxy) != 0.0;
      } else {
        assert forall p <- n.producers :: MissingVotes(b, r, p) != 0.0;
      }
    }
  }

  /** Starting from an exact book, one propagation leaves it exact if and only if the change that the
      tables say it drops is zero or would have reached nobody. */
  lemma {:induction false} PropagateExactIff(b: Book, v: Name, scale: real)
    requires Sound(b) && Exact(b) && v in b.voters
    requires Delivers(b, Trail(b, v, Drift(b, v, scale), scale))
    ensures Exact(Walk(b, v, scale).book) <==> Harmless(b, Trail(b, v, Drift(b, v, scale), scale))
  {
    hide Walk, Trail, Drift, Harmless, ProxyGap, ProducerGap, OnChain, Sound;
    var w, r := Walk(b, v, scale), Trail(b, v, Drift(b, v, scale), scale);
    WalkTrail(b, v, scale);
    OffTheMap(b, v);
    PropagateTotal(b, v, scale);
    HarmlessIff(b, r);
    forall q | q in b.voters ensures ProxyGap(w.book, NO_NAME, q) == -MissingWeight(b, r, q) {
      assert ProxyGap(b, NO_NAME, q) == 0.0;
      PropagateProxyGap(b, v, scale, NO_NAME, q);
    }
    forall p | p in b.producers ensures ProducerGap(w.book, NO_NAME, p) == -MissingVotes(b, r, p) {
      assert ProducerGap(b, NO_NAME, p) == 0.0;
      PropagateProducerGap(b, v, scale, NO_NAME, p);
    }
    assert w.book.voters.Keys == b.voters.Keys && w.book.producers.Keys == b.producers.Keys;
  }

  /** The empty name is on no chain. */
  lemma {:induction false} OffTheMap(b: Book, v: Name)
    requires Sound(b) && v in b.voters
    ensures !OnChain(Edges(b.voters), v, NO_NAME)
  {
    if OnChain(Edges(b.voters), v, NO_NAME) { ChainDescends(Edges(b.voters), v, NO_NAME); }
  }

  /** Whatever is dropped, no cached sum moves away from its recount by more than one. */
  lemma {:induction false} PropagateDriftBound(b: Book, v: Name, scale: real, q: Name, p: Name)
    requires Sound(b) && v in b.voters
    ensures q in b.voters ==>
      -1.0 <= ProxyGap(Walk(b, v, scale).book, NO_NAME, q) - ProxyGap(b, NO_NAME, q) <= 1.0
    ensures p in b.producers ==>
      -1.0 <= ProducerGap(Walk(b, v, scale).book, NO_NAME, p) - ProducerGap(b, NO_NAME, p) <= 1.0
  {
    OffTheMap(b, v);
    if q in b.voters { PropagateProxyGap(b, v, scale, NO_NAME, q); }
    if p in b.producers { PropagateProducerGap(b, v, scale, NO_NAME, p); }
  }

  // ---------------------------------------------------------------- weights stay non-negative

  lemma {:induction false} ProxiedNonNegative(b: Book, hole: Name, q: Name)
    requires q in b.voters && Solvent(b.voters) && ProxyGap(b, hole, q) >= 0.0
    ensures b.voters[q].proxied >= 0.0
  {
    RSumNonNegative(ClientColumn(b.voters, hole, q));
  }

  ghost predicate NoDeficit(b: Book, hole: Name) {
    forall q <- b.voters {:trigger ProxyGap(b, hole, q)} :: ProxyGap(b, hole, q) >= 0.0
  }

  lemma {:induction false} PassOnNoDeficit(b: Book, v: Name, scale: real, hole: Name)
    requires v in b.voters && b.voters[v].proxy in b.voters && v != hole && b.voters[v].producers == []
    requires NoDeficit(b, hole)
    ensures NoDeficit(PassOn(b, v, scale), hole)
  {
    forall q | q in PassOn(b, v, scale).voters ensures ProxyGap(PassOn(b, v, scale), hole, q) >= 0.0 {
      assert ProxyGap(b, hole, q) >= 0.0;
      PassOnKeepsGaps(b, v, scale, hole, q, NO_NAME);
    }
  }

  lemma {:induction false} BumpNoDeficit(b: Book, n: Name, d: real, hole: Name)
    requires n in b.voters && NoDeficit(b, hole) && ProxyGap(b, hole, n) + d >= 0.0
    ensures NoDeficit(Bump(b, n, d), hole)
  {
    forall q | q in Bump(b, n, d).voters ensures ProxyGap(Bump(b, n, d), hole, q) >= 0.0 {
      assert ProxyGap(b, hole, q) >= 0.0;
      BumpGaps(b, n, d, hole, q, NO_NAME);
    }
  }

  lemma {:induction false} StepSolvent(b: Book, v: Name, scale: real)
    requires scale >= 0.0 && Solvent(b.voters) && v in b.voters && b.voters[v].proxied >= 0.0
    ensures Solvent(Stop(b, v, scale).voters)
    ensures b.voters[v].proxy in b.voters ==> Solvent(PassOn(b, v, scale).voters)
  {
    assert StakeWeight(b.voters[v].staked, scale) >= 0.0;
    assert CurrentWeight(b.voters[v], scale) >= 0.0;
  }

  lemma {:induction false} PropagateSolvent(b: Book, v: Name, scale: real, hole: Name)
    requires Sound(b) && v in b.voters && !OnChain(Edges(b.voters), v, hole)
    requires scale >= 0.0 && Solvent(b.voters) && NoDeficit(b, hole)
    ensures Solvent(Walk(b, v, scale).book.voters)
    decreases Height(Edges(b.voters), v)
  {
    ProxiedNonNegative(b, hole, v);
    StepSolvent(b, v, scale);
    if !Small(Drift(b, v, scale)) && b.voters[v].proxy != NO_NAME {
      PassOnSound(b, v, scale);
      assert RowSound(b.voters[v]);
      PassOnNoDeficit(b, v, scale, hole);
      PropagateSolvent(PassOn(b, v, scale), b.voters[v].proxy, scale, hole);
    }
  }

  lemma {:induction false} ShiftGaps(b: Book, n: Name, d: real, scale: real, hole: Name, q: Name, p: Name)
    requires Sound(b) && n in b.voters && !OnChain(Edges(b.voters), n, hole)
    ensures var r := Trail(b, n, Arriving(b, n, d, scale), scale);
      && (q in b.voters ==>
            ProxyGap(Shift(b, n, d, scale).book, hole, q)
            == ProxyGap(b, hole, q) + (if q == n then d else 0.0) - MissingWeight(b, r, q))
      && (p in b.producers ==>
            ProducerGap(Shift(b, n, d, scale).book, hole, p) == ProducerGap(b, hole, p) - MissingVotes(b, r, p))
  {
    hide Trail, ProxyGap, ProducerGap, Walk, OnChain;
    var b1 := Bump(b, n, d);
    SameBallotsKeepsSound(b, b1);
    ShiftTrail(b, n, d, scale);
    BumpGaps(b, n, d, hole, q, p);
    if q in b.voters { PropagateProxyGap(b1, n, scale, hole, q); }
    if p in b.producers { PropagateProducerGap(b1, n, scale, hole, p); }
  }

  /** A dropped change leaves every producer alone. */
  lemma {:induction false} DroppedKeepsProducers(b: Book, v: Name, scale: real)
    requires Sound(b) && v in b.voters && Walk(b, v, scale).cut != 0.0
    ensures Walk(b, v, scale).book.producers == b.producers
    decreases Height(Edges(b.voters), v)
  {
    if !Small(Drift(b, v, scale)) && b.voters[v].proxy != NO_NAME {
      PassOnSound(b, v, scale);
      DroppedKeepsProducers(PassOn(b, v, scale), b.voters[v].proxy, scale);
    }
  }

  lemma {:induction false} BumpSolvent(b: Book, n: Name, d: real)
    requires n in b.voters && Solvent(b.voters)
    ensures Solvent(Bump(b, n, d).voters)
  {
  }

  lemma {:induction false} ShiftSolvent(b: Book, n: Name, d: real, scale: real, hole: Name)
    requires Sound(b) && n in b.voters && !OnChain(Edges(b.voters), n, hole)
    requires scale >= 0.0 && Solvent(b.voters) && NoDeficit(b, hole)
    requires ProxyGap(b, hole, n) + d >= 0.0
    ensures Solvent(Shift(b, n, d, scale).book.voters)
  {
    SameBallotsKeepsSound(b, Bump(b, n, d));
    BumpSolvent(b, n, d);
    BumpNoDeficit(b, n, d, hole);
    PropagateSolvent(Bump(b, n, d), n, scale, hole);
  }
}
