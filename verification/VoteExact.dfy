/** update_votes and regproxy keep every cached vote sum exact as long as no non-zero change is
    dropped by the "small changes" test. */
module VoteExact {
  import opened Base
  import opened Votes
  import opened VoteSums

  /** Where the old weight comes to rest when it leaves the old proxy; nowhere if there is nothing to leave. */
  ghost function LeaveTrail(b: Book, row: Voter, scale: real): Rest
    requires Sound(b)
  {
    if row.last > 0.0 && row.proxy in b.voters
    then Trail(b, row.proxy, Arriving(b, row.proxy, -row.last, scale), scale)
    else Rest(NO_NAME, 0.0)
  }

  /** Where the new weight comes to rest when it joins the new proxy. */
  ghost function JoinTrail(b: Book, proxy: Name, w: real, scale: real): Rest
    requires Sound(b)
  {
    if proxy in b.voters && w >= 0.0 then Trail(b, proxy, Arriving(b, proxy, w, scale), scale) else Rest(NO_NAME, 0.0)
  }

  /** Neither propagation of this update drops a change that would have reached anybody. */
  ghost predicate Lossless(b: Book, v: Name, proxy: Name, scale: real)
    requires Sound(b)
  {
    v in b.voters ==>
      var row := b.voters[v];
      && Benign(b, LeaveTrail(b, row, scale))
      && (var r := Leave(b, row, scale);
          r.Commit? ==> Benign(r.value, JoinTrail(r.value, proxy, CurrentWeight(row, scale), scale)))
  }

  /** The weight a voter last cast for `p`. */
  function CastFor(row: Voter, p: Name): real { if p in row.producers then row.last else 0.0 }

  lemma {:induction false} HoleGaps(b: Book, v: Name, q: Name, p: Name)
    requires Sound(b) && v in b.voters
    ensures q in b.voters ==>
      ProxyGap(b, v, q)
      == ProxyGap(b, NO_NAME, q) + if b.voters[v].proxy == q then b.voters[v].last else 0.0
    ensures p in b.producers ==>
      ProducerGap(b, v, p) == ProducerGap(b, NO_NAME, p) + CastFor(b.voters[v], p)
  {
    HoleMoves(b.voters, v, q, p);
  }

  lemma {:induction false} HoleNoDeficit(b: Book, v: Name)
    requires Clean(b) && v in b.voters
    ensures NoDeficit(b, v)
  {
    forall q | q in b.voters ensures ProxyGap(b, v, q) >= 0.0 {
      assert ProxyGap(b, NO_NAME, q) == 0.0;
      HoleGaps(b, v, q, NO_NAME);
    }
  }

  lemma {:induction false} ShiftTotal(b: Book, n: Name, d: real, scale: real)
    requires Sound(b) && n in b.voters && Shift(b, n, d, scale).delivered
    ensures Shift(b, n, d, scale).book.weight - VoteTotal(Shift(b, n, d, scale).book.producers)
         == b.weight - VoteTotal(b.producers)
  {
    SameBallotsKeepsSound(b, Bump(b, n, d));
    PropagateTotal(Bump(b, n, d), n, scale);
  }

  lemma {:induction false} ShiftOffChain(b: Book, n: Name, d: real, scale: real, x: Name)
    requires Sound(b) && n in b.voters && x in b.voters && !OnChain(Edges(b.voters), n, x)
    ensures Shift(b, n, d, scale).book.voters[x] == b.voters[x]
  {
    SameBallotsKeepsSound(b, Bump(b, n, d));
    OffChain(Bump(b, n, d), n, scale, x);
  }

  // ---------------------------------------------------------------- phase by phase

  lemma {:induction false} LeaveGaps(b: Book, v: Name, scale: real, q: Name, p: Name)
    requires Sound(b) && v in b.voters && b.voters[v].last >= 0.0
    requires Leave(b, b.voters[v], scale).Commit?
    ensures var b1, r := Leave(b, b.voters[v], scale).value, LeaveTrail(b, b.voters[v], scale);
      && (q in b.voters ==> ProxyGap(b1, v, q) == ProxyGap(b, NO_NAME, q) - MissingWeight(b, r, q))
      && (p in b.producers ==>
            ProducerGap(b1, v, p) == ProducerGap(b, NO_NAME, p) + CastFor(b.voters[v], p) - MissingVotes(b, r, p))
  {
    hide Walk, OnChain, ProxyGap, ProducerGap, Shift, Trail, Acyclic, Edges;
    var row := b.voters[v];
    HoleGaps(b, v, q, p);
    if row.last > 0.0 && row.proxy != NO_NAME {
      ProxyExists(b, v);
      ShiftGaps(b, row.proxy, -row.last, scale, v, q, p);
    }
  }

  lemma {:induction false} LeavingRest(b: Book, v: Name, n: Name, scale: real)
    requires Clean(b) && v in b.voters && n in b.voters && b.voters[v].proxy == n && scale >= 0.0
    requires !OnChain(Edges(b.voters), n, v)
    requires Shift(b, n, -b.voters[v].last, scale).delivered
    ensures var b1 := Shift(b, n, -b.voters[v].last, scale).book;
      Solvent(b1.voters) && b1.voters[v] == b.voters[v] && b1.weight == VoteTotal(b1.producers)
  {
    hide Walk, OnChain, ProxyGap, Shift;
    HoleNoDeficit(b, v);
    assert ProxyGap(b, NO_NAME, n) == 0.0;
    HoleGaps(b, v, n, NO_NAME);
    ShiftSolvent(b, n, -b.voters[v].last, scale, v);
    ShiftOffChain(b, n, -b.voters[v].last, scale, v);
    ShiftTotal(b, n, -b.voters[v].last, scale);
  }

  lemma {:induction false} LeaveRest(b: Book, v: Name, scale: real)
    requires Clean(b) && v in b.voters && scale >= 0.0
    requires Leave(b, b.voters[v], scale).Commit?
    ensures var b1 := Leave(b, b.voters[v], scale).value;
      Solvent(b1.voters) && b1.voters[v] == b.voters[v] && b1.weight == VoteTotal(b1.producers)
  {
    hide Walk, OnChain, ProxyGap, ProducerGap, Shift, Sound;
    var row := b.voters[v];
    if row.last > 0.0 && row.proxy != NO_NAME {
      ProxyExists(b, v);
      LeavingRest(b, v, row.proxy, scale);
    }
  }

  lemma {:induction false} JoinGaps(b: Book, v: Name, proxy: Name, w: real, voting: bool, scale: real, q: Name, p: Name)
    requires Sound(b) && w >= 0.0
    requires proxy != NO_NAME && proxy in b.voters ==> !OnChain(Edges(b.voters), proxy, v)
    requires Join(b, proxy, w, voting, scale).Commit?
    ensures var b2, r := Join(b, proxy, w, voting, scale).value, JoinTrail(b, proxy, w, scale);
      && (q in b.voters ==>
            ProxyGap(b2, v, q) == ProxyGap(b, v, q) + (if q == proxy then w else 0.0) - MissingWeight(b, r, q))
      && (p in b.producers ==> ProducerGap(b2, v, p) == ProducerGap(b, v, p) - MissingVotes(b, r, p))
  {
    hide Walk, OnChain, ProxyGap, ProducerGap, Shift, Trail, Acyclic, Edges;
    if proxy != NO_NAME { ShiftGaps(b, proxy, w, scale, v, q, p); }
  }

  lemma {:induction false} JoinRest(b: Book, v: Name, proxy: Name, w: real, voting: bool, scale: real)
    requires Sound(b) && w >= 0.0 && v in b.voters && scale >= 0.0
    requires Solvent(b.voters) && NoDeficit(b, v) && b.weight == VoteTotal(b.producers)
    requires proxy != NO_NAME && proxy in b.voters ==> !OnChain(Edges(b.voters), proxy, v)
    requires Join(b, proxy, w, voting, scale).Commit?
    ensures var b2 := Join(b, proxy, w, voting, scale).value;
      Solvent(b2.voters) && b2.voters[v] == b.voters[v] && b2.weight == VoteTotal(b2.producers)
  {
    if proxy != NO_NAME {
      ShiftSolvent(b, proxy, w, scale, v);
      ShiftOffChain(b, proxy, w, scale, v);
      ShiftTotal(b, proxy, w, scale);
    }
  }

  /** With every other ballot recounted, the clamp of update_votes never fires. */
  lemma {:induction false} ElectGap(b: Book, v: Name, row: Voter, producers: seq<Name>, w: real, voting: bool, p: Name)
    requires Solvent(b.voters) && w >= 0.0 && row.last >= 0.0
    requires row.proxy != NO_NAME ==> row.producers == []
    requires p in b.producers
    requires ProducerGap(b, v, p) == if p in row.producers then row.last else 0.0
    requires Elect(b, row, producers, w, voting).Commit?
    ensures var b3 := Elect(b, row, producers, w, voting).value;
      && ProducerGap(b3, v, p) == (if p in producers then w else 0.0)
      && b3.producers[p].votes == b.producers[p].votes + Change(OldBallot(row), row.last, producers, w, p)
      && b3.producers[p].votes >= 0.0
  {
    RSumNonNegative(BallotColumn(b.voters, v, p));
  }

  /** Dropping zero entries does not change a sum. */
  lemma {:induction false} RSumWithin(m: map<Name, real>, t: map<Name, real>)
    requires forall k <- t :: k in m && m[k] == t[k]
    requires forall k <- m :: k !in t ==> m[k] == 0.0
    ensures RSum(m) == RSum(t)
    decreases m.Keys
  {
    if m == map[] {
      assert t == map[];
    } else {
      var k :| k in m;
      RSumRemove(m, k);
      if k in t { RSumRemove(t, k); } else { assert t - {k} == t; }
      RSumWithin(m - {k}, t - {k});
    }
  }

  lemma {:induction false} RecastTotal(b: Book, out: seq<Name>, last: real, into: seq<Name>, w: real)
    requires forall p | p in b.producers && (p in out || p in into) ::
      b.producers[p].votes + Change(out, last, into, w, p) >= 0.0
    ensures var b' := Recast(b, out, last, into, w);
      b'.weight - VoteTotal(b'.producers) == b.weight - VoteTotal(b.producers)
  {
    hide RSum;
    var b' := Recast(b, out, last, into, w);
    var moved := map p | p in b.producers :: b'.producers[p].votes - b.producers[p].votes;
    RSumAdd(VoteColumn(b.producers), moved, VoteColumn(b'.producers));
    RSumWithin(moved, Deltas(b.producers, out, last, into, w));
  }

  /** The voter's own row enters the recount again. */
  lemma {:induction false} SetBallotGaps(b: Book, v: Name, w: real, proxy: Name, producers: seq<Name>, q: Name, p: Name)
    requires v in b.voters && NO_NAME !in b.voters
    ensures var b' := SetBallot(b, v, w, proxy, producers);
      && (q in b.voters ==>
            ProxyGap(b', NO_NAME, q) == ProxyGap(b, v, q) - if proxy == q then w else 0.0)
      && (p in b.producers ==>
            ProducerGap(b', NO_NAME, p) == ProducerGap(b, v, p) - if p in producers then w else 0.0)
  {
    var row := b.voters[v].(last := w, producers := producers, proxy := proxy);
    var voters' := b.voters[v := row];
    ClientSumRow(b.voters, v, q, v, row);
    BallotSumRow(b.voters, v, p, v, row);
    HoleMoves(voters', v, q, p);
  }

  /** A fresh vote picks a proxy off the voter's own chain, and a repeated one is off it too. */
  lemma {:induction false} NewProxyOffChain(b: Book, v: Name, proxy: Name, voting: bool)
    requires Sound(b) && v in b.voters && proxy in b.voters && proxy != v
    requires if voting then b.voters[proxy].isProxy else proxy == b.voters[v].proxy
    ensures !OnChain(Edges(b.voters), proxy, v)
  {
    if voting {
      assert RowSound(b.voters[proxy]);
    } else {
      ProxyExists(b, v);
    }
  }

  /** Everything the phases establish about the book `b3` just before the voter's row is stored. */
  ghost predicate Settled(b3: Book, v: Name, w: real, proxy: Name, producers: seq<Name>) {
    && Solvent(b3.voters) && v in b3.voters && b3.weight == VoteTotal(b3.producers)
    && (forall q <- b3.voters {:trigger ProxyGap(b3, v, q)} ::
          ProxyGap(b3, v, q) == if q == proxy then w else 0.0)
    && (forall p <- b3.producers {:trigger ProducerGap(b3, v, p)} ::
          ProducerGap(b3, v, p) == if p in producers then w else 0.0)
  }

  lemma {:induction false} StoreExact(b3: Book, v: Name, w: real, proxy: Name, producers: seq<Name>)
    requires Settled(b3, v, w, proxy, producers) && NO_NAME !in b3.voters && w >= 0.0
    ensures var b' := SetBallot(b3, v, w, proxy, producers); Exact(b') && Solvent(b'.voters)
  {
    hide RSum, ProxyGap, ProducerGap;
    var b' := SetBallot(b3, v, w, proxy, producers);
    forall q | q in b'.voters ensures ProxyGap(b', NO_NAME, q) == 0.0 {
      assert ProxyGap(b3, v, q) == if q == proxy then w else 0.0;
      SetBallotGaps(b3, v, w, proxy, producers, q, NO_NAME);
    }
    forall p | p in b'.producers ensures ProducerGap(b', NO_NAME, p) == 0.0 {
      assert ProducerGap(b3, v, p) == if p in producers then w else 0.0;
      SetBallotGaps(b3, v, w, proxy, producers, NO_NAME, p);
    }
  }

  /** Everything known about the book `b2` once both proxies have been told. */
  ghost predicate Told(b2: Book, v: Name, row: Voter, w: real, proxy: Name) {
    && Solvent(b2.voters) && v in b2.voters && b2.voters[v] == row && b2.weight == VoteTotal(b2.producers)
    && (forall q <- b2.voters {:trigger ProxyGap(b2, v, q)} ::
          ProxyGap(b2, v, q) == if q == proxy then w else 0.0)
    && (forall p <- b2.producers {:trigger ProducerGap(b2, v, p)} :: ProducerGap(b2, v, p) == CastFor(row, p))
  }

  lemma {:induction false} ElectExact(b2: Book, v: Name, row: Voter, w: real, proxy: Name,
                                      producers: seq<Name>, voting: bool)
    requires Told(b2, v, row, w, proxy) && w >= 0.0 && RowSound(row)
    requires Elect(b2, row, producers, w, voting).Commit?
    ensures Settled(Elect(b2, row, producers, w, voting).value, v, w, proxy, producers)
    ensures var b3 := Elect(b2, row, producers, w, voting).value;
      forall p <- b2.producers :: b3.producers[p].votes
        == b2.producers[p].votes + Change(OldBallot(row), row.last, producers, w, p)
  {
    hide RSum, ProducerGap;
    var b3 := Elect(b2, row, producers, w, voting).value;
    forall p | p in b3.producers
      ensures ProducerGap(b3, v, p) == if p in producers then w else 0.0
      ensures b3.producers[p].votes
        == b2.producers[p].votes + Change(OldBallot(row), row.last, producers, w, p) >= 0.0
    {
      assert ProducerGap(b2, v, p) == CastFor(row, p);
      ElectGap(b2, v, row, producers, w, voting, p);
    }
    forall q | q in b3.voters ensures ProxyGap(b3, v, q) == if q == proxy then w else 0.0 {
      assert ProxyGap(b2, v, q) == if q == proxy then w else 0.0;
    }
    RecastTotal(b2, OldBallot(row), row.last, producers, w);
  }

  lemma {:induction false} TellExact(b: Book, v: Name, proxy: Name, voting: bool, scale: real)
    requires Clean(b) && v in b.voters && scale >= 0.0 && proxy != v
    requires !voting ==> proxy == b.voters[v].proxy
    requires Lossless(b, v, proxy, scale)
    requires Leave(b, b.voters[v], scale).Commit?
    requires Join(Leave(b, b.voters[v], scale).value, proxy, CurrentWeight(b.voters[v], scale), voting, scale).Commit?
    ensures var row := b.voters[v];
      var w := CurrentWeight(row, scale);
      w >= 0.0 && Told(Join(Leave(b, row, scale).value, proxy, w, voting, scale).value, v, row, w, proxy)
  {
    hide RSum, ProducerGap, ProxyGap, Walk, OnChain, Shift, VoteTotal, Leave, Join, LeaveTrail, JoinTrail;
    hide MissingWeight, MissingVotes, Benign;
    var row := b.voters[v];
    var w := CurrentWeight(row, scale);
    var b1 := Leave(b, row, scale).value;
    var b2 := Join(b1, proxy, w, voting, scale).value;
    BenignMisses(b, LeaveTrail(b, row, scale));
    BenignMisses(b1, JoinTrail(b1, proxy, w, scale));
    WeightNonNegative(b, v, scale);
    LeaveRest(b, v, scale);
    forall q | q in b1.voters ensures ProxyGap(b1, v, q) == 0.0 {
      assert ProxyGap(b, NO_NAME, q) == 0.0;
      LeaveGaps(b, v, scale, q, NO_NAME);
    }
    if proxy != NO_NAME { NewProxyOffChain(b1, v, proxy, voting); }
    JoinRest(b1, v, proxy, w, voting, scale);
    forall q | q in b2.voters ensures ProxyGap(b2, v, q) == if q == proxy then w else 0.0 {
      JoinGaps(b1, v, proxy, w, voting, scale, q, NO_NAME);
    }
    forall p | p in b2.producers ensures ProducerGap(b2, v, p) == CastFor(row, p) {
      assert ProducerGap(b, NO_NAME, p) == 0.0;
      LeaveGaps(b, v, scale, NO_NAME, p);
      JoinGaps(b1, v, proxy, w, voting, scale, NO_NAME, p);
    }
  }

  lemma {:induction false} WeightNonNegative(b: Book, v: Name, scale: real)
    requires Clean(b) && v in b.voters && scale >= 0.0
    ensures CurrentWeight(b.voters[v], scale) >= 0.0
  {
    assert ProxyGap(b, NO_NAME, v) == 0.0;
    ProxiedNonNegative(b, NO_NAME, v);
    assert StakeWeight(b.voters[v].staked, scale) >= 0.0;
  }

  /** An exact book stays exact through update_votes, whether voting or re-staking, as long as no
      change is dropped that would have reached anybody; the producers' totals are then never clamped. */
  lemma {:induction false} UpdateVotesExact(b: Book, v: Name, proxy: Name, producers: seq<Name>,
                                            voting: bool, scale: real)
    requires Clean(b) && scale >= 0.0
    requires !voting ==> v in b.voters && proxy == b.voters[v].proxy && producers == b.voters[v].producers
    requires Lossless(b, v, proxy, scale)
    ensures var r := UpdateVotes(b, v, proxy, producers, voting, scale);
      r.Commit? ==> Clean(r.value)
  {
    hide RSum, ProducerGap, ProxyGap, Walk, OnChain, Shift, VoteTotal, Leave, Join, SetBallot, Exact, Acyclic, Recast;
    var r := UpdateVotes(b, v, proxy, producers, voting, scale);
    if r.Commit? {
      var row := b.voters[v];
      var w := CurrentWeight(row, scale);
      TellExact(b, v, proxy, voting, scale);
      var b2 := Join(Leave(b, row, scale).value, proxy, w, voting, scale).value;
      assert RowSound(row);
      ElectExact(b2, v, row, w, proxy, producers, voting);
      var b3 := Elect(b2, row, producers, w, voting).value;
      StoreExact(b3, v, w, proxy, producers);
      UpdateVotesSound(b, v, proxy, producers, voting, scale);
      UpdateVotesListedIff(b, v, proxy, producers, voting, scale);
    }
  }

  // ---------------------------------------------------------------- exactly when sums stay exact

  /** The dropped changes of the two propagations, together, that would have reached `q` or `p`. */
  ghost function LostWeight(b: Book, v: Name, proxy: Name, scale: real, q: Name): real
    requires Sound(b) && v in b.voters && Leave(b, b.voters[v], scale).Commit?
  {
    var row := b.voters[v];
    MissingWeight(b, LeaveTrail(b, row, scale), q)
    + MissingWeight(b, JoinTrail(Leave(b, row, scale).value, proxy, CurrentWeight(row, scale), scale), q)
  }

  ghost function LostVotes(b: Book, v: Name, proxy: Name, scale: real, p: Name): real
    requires Sound(b) && v in b.voters && Leave(b, b.voters[v], scale).Commit?
  {
    var row := b.voters[v];
    MissingVotes(b, LeaveTrail(b, row, scale), p)
    + MissingVotes(b, JoinTrail(Leave(b, row, scale).value, proxy, CurrentWeight(row, scale), scale), p)
  }

  lemma {:induction false} SameMissing(b: Book, b': Book, r: Rest, x: Name)
    requires SameBallots(b.voters, b'.voters)
    ensures MissingWeight(b', r, x) == MissingWeight(b, r, x) && MissingVotes(b', r, x) == MissingVotes(b, r, x)
  {
  }

  /** Both proxies have been told: every gap is the lost change. */
  lemma {:induction false} TellGaps(b: Book, v: Name, proxy: Name, voting: bool, scale: real, q: Name, p: Name)
    requires Clean(b) && v in b.voters && scale >= 0.0 && proxy != v
    requires !voting ==> proxy == b.voters[v].proxy
    requires Leave(b, b.voters[v], scale).Commit?
    requires Join(Leave(b, b.voters[v], scale).value, proxy, CurrentWeight(b.voters[v], scale), voting, scale).Commit?
    ensures var row := b.voters[v];
      var w := CurrentWeight(row, scale);
      var b2 := Join(Leave(b, row, scale).value, proxy, w, voting, scale).value;
      && (q in b.voters ==> ProxyGap(b2, v, q) == (if q == proxy then w else 0.0) - LostWeight(b, v, proxy, scale, q))
      && (p in b.producers ==> ProducerGap(b2, v, p) == CastFor(row, p) - LostVotes(b, v, proxy, scale, p))
  {
    hide RSum, ProducerGap, ProxyGap, Walk, OnChain, Shift, VoteTotal, Leave, Join, LeaveTrail, JoinTrail;
    hide MissingWeight, MissingVotes;
    var row := b.voters[v];
    var w := CurrentWeight(row, scale);
    var b1 := Leave(b, row, scale).value;
    WeightNonNegative(b, v, scale);
    if q in b.voters { assert ProxyGap(b, NO_NAME, q) == 0.0; }
    if p in b.producers { assert ProducerGap(b, NO_NAME, p) == 0.0; }
    LeaveGaps(b, v, scale, q, p);
    if proxy != NO_NAME { NewProxyOffChain(b1, v, proxy, voting); }
    JoinGaps(b1, v, proxy, w, voting, scale, q, p);
    SameMissing(b, b1, JoinTrail(b1, proxy, w, scale), q);
    SameMissing(b, b1, JoinTrail(b1, proxy, w, scale), p);
  }

  /** A voter without a proxy joins one. */
  lemma {:induction false} JoinCovers(b: Book, v: Name, proxy: Name, voting: bool, scale: real, p: Name)
    requires Clean(b) && v in b.voters && scale >= 0.0 && proxy != v && p in b.producers && b.voters[v].proxy == NO_NAME
    requires !voting ==> proxy == NO_NAME
    requires Join(b, proxy, CurrentWeight(b.voters[v], scale), voting, scale).Commit?
    ensures var row := b.voters[v];
      var b2 := Join(b, proxy, CurrentWeight(row, scale), voting, scale).value;
      p in b2.producers && b2.producers[p].votes >= CastFor(row, p)
  {
    hide Walk, OnChain, ProxyGap, VoteTotal, Trail, Acyclic, Edges, RSum, Shift;
    var row := b.voters[v];
    var w := CurrentWeight(row, scale);
    var b2 := Join(b, proxy, w, voting, scale).value;
    WeightNonNegative(b, v, scale);
    assert ProducerGap(b, NO_NAME, p) == 0.0;
    HoleGaps(b, v, NO_NAME, p);
    if proxy != NO_NAME {
      NewProxyOffChain(b, v, proxy, voting);
      ShiftKeeps(b, proxy, w, scale);
    }
    HoleNoDeficit(b, v);
    JoinRest(b, v, proxy, w, voting, scale);
    JoinGaps(b, v, proxy, w, voting, scale, NO_NAME, p);
    RSumNonNegative(BallotColumn(b.voters, v, p));
    RSumNonNegative(BallotColumn(b2.voters, v, p));
  }

  /** A voter leaves its proxy. */
  lemma {:induction false} LeaveCovers(b: Book, v: Name, scale: real, p: Name)
    requires Clean(b) && v in b.voters && scale >= 0.0 && p in b.producers && b.voters[v].proxy != NO_NAME
    requires Leave(b, b.voters[v], scale).Commit?
    ensures var b1 := Leave(b, b.voters[v], scale).value; p in b1.producers && b1.producers[p].votes >= 0.0
  {
    hide Walk, OnChain, ProxyGap, VoteTotal, Trail, Acyclic, Edges, RSum, Shift;
    var row := b.voters[v];
    var b1 := Leave(b, row, scale).value;
    assert ProducerGap(b, NO_NAME, p) == 0.0;
    assert RowSound(row);
    ProxyExists(b, v);
    ShiftKeeps(b, row.proxy, -row.last, scale);
    LeaveRest(b, v, scale);
    LeaveGaps(b, v, scale, NO_NAME, p);
    RSumNonNegative(BallotColumn(b.voters, NO_NAME, p));
    RSumNonNegative(BallotColumn(b1.voters, v, p));
  }

  /** The clamp of update_votes never fires, whatever was dropped: a dropped change leaves the producers as
      they were, and those were exact. */
  lemma {:induction false} NeverClamps(b: Book, v: Name, proxy: Name, producers: seq<Name>, voting: bool, scale: real,
                                       p: Name)
    requires Clean(b) && v in b.voters && scale >= 0.0 && p in b.producers && Ballot(v, proxy, producers)
    requires !voting ==> proxy == b.voters[v].proxy
    requires Leave(b, b.voters[v], scale).Commit?
    requires Join(Leave(b, b.voters[v], scale).value, proxy, CurrentWeight(b.voters[v], scale), voting, scale).Commit?
    requires p in OldBallot(b.voters[v]) || p in producers
    ensures var row := b.voters[v];
      var w := CurrentWeight(row, scale);
      var b2 := Join(Leave(b, row, scale).value, proxy, w, voting, scale).value;
      && w >= 0.0 && p in b2.producers
      && b2.producers[p].votes + Change(OldBallot(row), row.last, producers, w, p) >= 0.0
  {
    hide Walk, OnChain, ProxyGap, ProducerGap, VoteTotal, Trail, Acyclic, Edges, RSum, Shift;
    WeightNonNegative(b, v, scale);
    var row := b.voters[v];
    assert RowSound(row);
    if row.proxy == NO_NAME {
      assert Leave(b, row, scale).value == b;
      JoinCovers(b, v, proxy, voting, scale, p);
    } else {
      LeaveCovers(b, v, scale, p);
    }
  }

  lemma {:induction false} ShiftKeeps(b: Book, n: Name, d: real, scale: real)
    requires Sound(b) && n in b.voters
    ensures var r := Trail(b, n, Arriving(b, n, d, scale), scale);
      r.Dropped() != 0.0 ==> Shift(b, n, d, scale).book.producers == b.producers
  {
    hide Walk, Trail;
    ShiftTrail(b, n, d, scale);
    var b1 := Bump(b, n, d);
    SameBallotsKeepsSound(b, b1);
    if Walk(b1, n, scale).cut != 0.0 { DroppedKeepsProducers(b1, n, scale); }
  }

  lemma {:induction false} TellTotal(b: Book, v: Name, proxy: Name, voting: bool, scale: real)
    requires Sound(b) && v in b.voters && b.weight == VoteTotal(b.producers)
    requires Leave(b, b.voters[v], scale).Commit?
    requires Join(Leave(b, b.voters[v], scale).value, proxy, CurrentWeight(b.voters[v], scale), voting, scale).Commit?
    ensures var row := b.voters[v];
      var b2 := Join(Leave(b, row, scale).value, proxy, CurrentWeight(row, scale), voting, scale).value;
      b2.weight == VoteTotal(b2.producers)
  {
    hide Walk, OnChain, Acyclic, Edges, RSum, Shift, VoteTotal;
    var row := b.voters[v];
    var b1 := Leave(b, row, scale).value;
    if row.last > 0.0 && row.proxy != NO_NAME { ShiftTotal(b, row.proxy, -row.last, scale); }
    if proxy != NO_NAME && CurrentWeight(row, scale) >= 0.0 { ShiftTotal(b1, proxy, CurrentWeight(row, scale), scale); }
  }

  /** The ballots move without a clamp: votes and total follow the recount. */
  lemma {:induction false} ElectGaps(b2: Book, v: Name, row: Voter, producers: seq<Name>, w: real, voting: bool,
                                     q: Name, p: Name)
    requires RowSound(row) && row.last >= 0.0 && w >= 0.0 && Elect(b2, row, producers, w, voting).Commit?
    requires forall x | x in b2.producers && (x in OldBallot(row) || x in producers) ::
      b2.producers[x].votes + Change(OldBallot(row), row.last, producers, w, x) >= 0.0
    ensures var b3 := Elect(b2, row, producers, w, voting).value;
      && (q in b2.voters ==> ProxyGap(b3, v, q) == ProxyGap(b2, v, q))
      && (p in b2.producers ==>
            ProducerGap(b3, v, p) == ProducerGap(b2, v, p) + (if p in producers then w else 0.0) - CastFor(row, p))
      && b3.weight - VoteTotal(b3.producers) == b2.weight - VoteTotal(b2.producers)
  {
    hide RSum, VoteTotal;
    RecastTotal(b2, OldBallot(row), row.last, producers, w);
  }

  /** From an exact book, update_votes leaves every cached sum off its recount by exactly the changes that its
      two propagations drop on the way to it. */
  lemma {:induction false} UpdateVotesGaps(b: Book, v: Name, proxy: Name, producers: seq<Name>, voting: bool,
                                           scale: real)
    requires Clean(b) && scale >= 0.0
    requires !voting ==> v in b.voters && proxy == b.voters[v].proxy && producers == b.voters[v].producers
    requires UpdateVotes(b, v, proxy, producers, voting, scale).Commit?
    ensures v in b.voters && Leave(b, b.voters[v], scale).Commit?
    ensures var b' := UpdateVotes(b, v, proxy, producers, voting, scale).value;
      && b'.voters.Keys == b.voters.Keys && b'.producers.Keys == b.producers.Keys && b'.weight == VoteTotal(b'.producers)
      && (forall q <- b.voters {:trigger ProxyGap(b', NO_NAME, q)} ::
            ProxyGap(b', NO_NAME, q) == -LostWeight(b, v, proxy, scale, q))
      && (forall p <- b.producers {:trigger ProducerGap(b', NO_NAME, p)} ::
            ProducerGap(b', NO_NAME, p) == -LostVotes(b, v, proxy, scale, p))
  {
    hide RSum, ProducerGap, ProxyGap, Walk, OnChain, Shift, VoteTotal, Leave, Join, Acyclic, Edges, LostWeight;
    hide LostVotes, Elect, Change;
    var row := b.voters[v];
    var w := CurrentWeight(row, scale);
    var b2 := Join(Leave(b, row, scale).value, proxy, w, voting, scale).value;
    var b3 := Elect(b2, row, producers, w, voting).value;
    var b' := SetBallot(b3, v, w, proxy, producers);
    assert RowSound(row) && b'.voters.Keys == b.voters.Keys && b'.producers.Keys == b.producers.Keys;
    WeightNonNegative(b, v, scale);
    TellTotal(b, v, proxy, voting, scale);
    forall x | x in b2.producers && (x in OldBallot(row) || x in producers)
      ensures b2.producers[x].votes + Change(OldBallot(row), row.last, producers, w, x) >= 0.0
    {
      NeverClamps(b, v, proxy, producers, voting, scale, x);
    }
    ElectGaps(b2, v, row, producers, w, voting, NO_NAME, NO_NAME);
    forall q | q in b.voters ensures ProxyGap(b', NO_NAME, q) == -LostWeight(b, v, proxy, scale, q) {
      TellGaps(b, v, proxy, voting, scale, q, NO_NAME);
      ElectGaps(b2, v, row, producers, w, voting, q, NO_NAME);
      SetBallotGaps(b3, v, w, proxy, producers, q, NO_NAME);
    }
    forall p | p in b.producers ensures ProducerGap(b', NO_NAME, p) == -LostVotes(b, v, proxy, scale, p) {
      TellGaps(b, v, proxy, voting, scale, NO_NAME, p);
      ElectGaps(b2, v, row, producers, w, voting, NO_NAME, p);
      SetBallotGaps(b3, v, w, proxy, producers, NO_NAME, p);
    }
  }

  /** update_votes leaves an exact book exact if and only if, for every proxy and every producer, the changes
      its two propagations drop on the way to it add up to nothing. */
  lemma {:induction false} UpdateVotesExactIff(b: Book, v: Name, proxy: Name, producers: seq<Name>, voting: bool,
                                               scale: real)
    requires Clean(b) && scale >= 0.0
    requires !voting ==> v in b.voters && proxy == b.voters[v].proxy && producers == b.voters[v].producers
    requires UpdateVotes(b, v, proxy, producers, voting, scale).Commit?
    ensures v in b.voters && Leave(b, b.voters[v], scale).Commit?
    ensures Exact(UpdateVotes(b, v, proxy, producers, voting, scale).value) <==>
      && (forall q <- b.voters :: LostWeight(b, v, proxy, scale, q) == 0.0)
      && (forall p <- b.producers :: LostVotes(b, v, proxy, scale, p) == 0.0)
  {
    hide ProducerGap, ProxyGap, VoteTotal, Leave, LostWeight, LostVotes, UpdateVotes, Sound, Solvent, Listed;
    UpdateVotesGaps(b, v, proxy, producers, voting, scale);
    var b' := UpdateVotes(b, v, proxy, producers, voting, scale).value;
    forall q | q in b.voters ensures ProxyGap(b', NO_NAME, q) == -LostWeight(b, v, proxy, scale, q) {}
    forall p | p in b.producers ensures ProducerGap(b', NO_NAME, p) == -LostVotes(b, v, proxy, scale, p) {}
  }

  /** A whole update_votes moves no cached sum away from an exact recount by more than two: one for each
      propagation, and nothing for the clamp. */
  lemma {:induction false} UpdateVotesDriftBound(b: Book, v: Name, proxy: Name, producers: seq<Name>, voting: bool,
                                                 scale: real,
                                                 q: Name, p: Name)
    requires Clean(b) && scale >= 0.0
    requires !voting ==> v in b.voters && proxy == b.voters[v].proxy && producers == b.voters[v].producers
    requires UpdateVotes(b, v, proxy, producers, voting, scale).Commit?
    ensures var b' := UpdateVotes(b, v, proxy, producers, voting, scale).value;
      && (q in b'.voters ==> -2.0 <= ProxyGap(b', NO_NAME, q) <= 2.0)
      && (p in b'.producers ==> -2.0 <= ProducerGap(b', NO_NAME, p) <= 2.0)
      && b'.weight == VoteTotal(b'.producers)
  {
    hide ProducerGap, ProxyGap, VoteTotal, Leave, LeaveTrail, JoinTrail, UpdateVotes, Sound, Solvent, Listed, Exact;
    UpdateVotesGaps(b, v, proxy, producers, voting, scale);
  }

  /** From a book whose ballots are all registered, update_votes leaves one exactly unless the voter's weight
      is negative and the new ballot names an unregistered producer: a negative weight skips the check but
      not the storing. */
  lemma {:induction false} UpdateVotesListedIff(b: Book, v: Name, proxy: Name, producers: seq<Name>,
                                                voting: bool, scale: real)
    requires Sound(b) && Listed(b) && UpdateVotes(b, v, proxy, producers, voting, scale).Commit?
    ensures v in b.voters
    ensures Listed(UpdateVotes(b, v, proxy, producers, voting, scale).value)
      <==> CurrentWeight(b.voters[v], scale) >= 0.0 || Registered(producers, b.producers)
  {
    hide Walk, OnChain, Shift, Acyclic, Leave, Join, Recast, CurrentWeight;
    var b' := UpdateVotes(b, v, proxy, producers, voting, scale).value;
    assert b'.voters[v].producers == producers && b'.producers.Keys == b.producers.Keys;
    forall u | u in b'.voters && u != v ensures Registered(b'.voters[u].producers, b'.producers) {
      assert Registered(b.voters[u].producers, b.producers);
    }
    assert Registered(producers, b'.producers) == Registered(producers, b.producers);
    assert CurrentWeight(b.voters[v], scale) >= 0.0 ==> Electable(producers, b.producers, voting);
    if Registered(producers, b.producers) {
      assert Listed(b');
    } else {
      assert !Registered(b'.voters[v].producers, b'.producers);
    }
  }

  /** A change that comes to rest somewhere is delivered there. */
  ghost predicate Arrives(b: Book, r: Rest) { r.stop in b.voters ==> Delivers(b, r) }

  /** What the tables before each propagation say about re-applying `v`'s stored vote: both arrive at
      registered producers or are dropped, and the own ballot is registered unless the weight is negative. */
  ghost predicate Revotes(b: Book, v: Name, scale: real)
    requires Sound(b) && v in b.voters
  {
    var row := b.voters[v];
    var w, left := CurrentWeight(row, scale), Leave(b, row, scale);
    && Arrives(b, LeaveTrail(b, row, scale))
    && (left.Commit? ==> Arrives(left.value, JoinTrail(left.value, row.proxy, w, scale)))
    && (w >= 0.0 ==> Registered(row.producers, b.producers))
  }

  /** Re-staking can abort over votes exactly when the tables say so; every other assert of update_votes is
      unreachable there. */
  lemma {:induction false} RevoteIff(b: Book, v: Name, scale: real)
    requires Sound(b) && v in b.voters
    ensures UpdateVotes(b, v, b.voters[v].proxy, b.voters[v].producers, false, scale).Commit? <==> Revotes(b, v, scale)
  {
    hide Walk, OnChain, Shift, Acyclic, Edges, SetBallot, Recast, CurrentWeight, Trail;
    var row := b.voters[v];
    var w := CurrentWeight(row, scale);
    assert RowSound(row);
    if row.proxy != NO_NAME {
      ProxyExists(b, v);
      ShiftTrail(b, row.proxy, -row.last, scale);
      var left := Leave(b, row, scale);
      if left.Commit? { ShiftTrail(left.value, row.proxy, w, scale); }
    }
  }

  /** With every stored ballot registered, a stored vote can always be re-applied. */
  lemma {:induction false} ListedRevotes(b: Book, v: Name, scale: real)
    requires Sound(b) && Listed(b) && v in b.voters
    ensures Revotes(b, v, scale)
  {
    hide Walk, OnChain, Shift, Acyclic, Edges, CurrentWeight, Trail, Sound, Leave;
    var row := b.voters[v];
    var left := Leave(b, row, scale);
    assert Registered(row.producers, b.producers);
    ListedArrives(b, LeaveTrail(b, row, scale));
    if left.Commit? {
      SameListed(b, left.value);
      ListedArrives(left.value, JoinTrail(left.value, row.proxy, CurrentWeight(row, scale), scale));
    }
  }

  lemma {:induction false} ListedArrives(b: Book, r: Rest)
    requires Listed(b)
    ensures Arrives(b, r)
  {
    assert r.stop in b.voters ==> Registered(b.voters[r.stop].producers, b.producers);
  }

  lemma {:induction false} SameListed(b: Book, b': Book)
    requires Listed(b) && SameBallots(b.voters, b'.voters) && SameRegister(b.producers, b'.producers)
    ensures Listed(b')
  {
    forall u | u in b'.voters ensures Registered(b'.voters[u].producers, b'.producers) {
      assert Registered(b.voters[u].producers, b.producers);
    }
  }

  /** With every ballot registered, the "producer not found" assert of the walk is unreachable. */
  lemma {:induction false} WalkDelivered(b: Book, v: Name, scale: real)
    requires Sound(b) && Listed(b) && v in b.voters
    ensures Walk(b, v, scale).delivered
  {
    hide Walk, Trail;
    WalkTrail(b, v, scale);
    assert Registered(b.voters[Trail(b, v, Drift(b, v, scale), scale).stop].producers, b.producers);
  }

  // ---------------------------------------------------------------- regproxy

  /** Where the change comes to rest when `v` flips its proxy flag. */
  ghost function FlagTrail(b: Book, v: Name, isProxy: bool, scale: real): Rest
    requires Sound(b)
  {
    if v in b.voters
    then Trail(b, v, CurrentWeight(b.voters[v].(isProxy := isProxy), scale) - b.voters[v].last, scale)
    else Rest(NO_NAME, 0.0)
  }

  lemma {:induction false} FlagTrailIs(b: Book, v: Name, isProxy: bool, scale: real)
    requires Sound(b) && v in b.voters && (isProxy ==> b.voters[v].proxy == NO_NAME)
    ensures var b' := Flag(b, v, isProxy);
      Sound(b') && Trail(b', v, Drift(b', v, scale), scale) == FlagTrail(b, v, isProxy, scale)
  {
    FlagSound(b, v, isProxy);
    TrailSame(b, Flag(b, v, isProxy), v, Drift(Flag(b, v, isProxy), v, scale), scale);
  }

  lemma {:induction false} FlagClean(b: Book, v: Name, isProxy: bool)
    requires Clean(b) && v in b.voters && (isProxy ==> b.voters[v].proxy == NO_NAME)
    ensures Clean(Flag(b, v, isProxy))
  {
    hide RSum, ClientShare, BallotShare;
    FlagSound(b, v, isProxy);
    var b' := Flag(b, v, isProxy);
    forall q | q in b'.voters ensures ProxyGap(b', NO_NAME, q) == 0.0 {
      assert ProxyGap(b, NO_NAME, q) == 0.0;
      SameShares(b, v, isProxy, q);
      ClientSumRow(b.voters, NO_NAME, q, v, b'.voters[v]);
    }
    forall p | p in b'.producers ensures ProducerGap(b', NO_NAME, p) == 0.0 {
      assert ProducerGap(b, NO_NAME, p) == 0.0;
      SameShares(b, v, isProxy, p);
      BallotSumRow(b.voters, NO_NAME, p, v, b'.voters[v]);
    }
    forall u | u in b'.voters ensures Registered(b'.voters[u].producers, b'.producers) {
      assert Registered(b.voters[u].producers, b.producers);
    }
  }

  lemma {:induction false} SameShares(b: Book, v: Name, isProxy: bool, x: Name)
    requires v in b.voters
    ensures var row, row' := b.voters[v], b.voters[v].(isProxy := isProxy);
      && ClientShare(row', v, NO_NAME, x) == ClientShare(row, v, NO_NAME, x)
      && BallotShare(row', v, NO_NAME, x) == BallotShare(row, v, NO_NAME, x)
  {
  }

  lemma {:induction false} WalkClean(b: Book, v: Name, scale: real)
    requires Clean(b) && v in b.voters && scale >= 0.0
    ensures var r, b' := Trail(b, v, Drift(b, v, scale), scale), Walk(b, v, scale).book;
      Sound(b') && Solvent(b'.voters) && Listed(b') && (Exact(b') <==> Harmless(b, r))
  {
    hide RSum, ProxyGap, ProducerGap, OnChain, Trail, Walk, Harmless;
    WalkDelivered(b, v, scale);
    WalkTrail(b, v, scale);
    PropagateExactIff(b, v, scale);
    OffTheMap(b, v);
    forall q | q in b.voters ensures ProxyGap(b, NO_NAME, q) >= 0.0 {
      assert ProxyGap(b, NO_NAME, q) == 0.0;
    }
    PropagateSolvent(b, v, scale, NO_NAME);
    SameListed(b, Walk(b, v, scale).book);
  }

  /** regproxy keeps an exact book exact if and only if the change that the tables say it drops is zero or
      would have reached nobody; everything else about the book is kept anyway. */
  lemma {:induction false} RegProxyExactIff(b: Book, v: Name, isProxy: bool, scale: real)
    requires Clean(b) && v != NO_NAME && scale >= 0.0 && RegProxy(b, v, isProxy, scale).Commit?
    ensures var b', r := RegProxy(b, v, isProxy, scale).value, FlagTrail(b, v, isProxy, scale);
      && Sound(b') && Solvent(b'.voters) && Listed(b')
      && (Exact(b') <==> Benign(b, r))
  {
    hide Walk, Exact, Harmless, Trail;
    if v in b.voters {
      FlagClean(b, v, isProxy);
      FlagTrailIs(b, v, isProxy, scale);
      WalkClean(Flag(b, v, isProxy), v, scale);
      SameHarm(b, Flag(b, v, isProxy), FlagTrail(b, v, isProxy, scale));
    } else {
      NewVoterClean(b, v, isProxy);
    }
  }

  lemma {:induction false} SameHarm(b: Book, b': Book, r: Rest)
    requires r.stop in b.voters && r.stop in b'.voters && b'.producers == b.producers
    requires b'.voters[r.stop].proxy == b.voters[r.stop].proxy
    requires b'.voters[r.stop].producers == b.voters[r.stop].producers
    ensures Harmless(b', r) == Harmless(b, r)
  {
  }

  lemma {:induction false} RegProxyExact(b: Book, v: Name, isProxy: bool, scale: real)
    requires Clean(b) && v != NO_NAME && scale >= 0.0 && Benign(b, FlagTrail(b, v, isProxy, scale))
    ensures var r := RegProxy(b, v, isProxy, scale); r.Commit? ==> Clean(r.value)
  {
    hide FlagTrail, RegProxy, Exact, Acyclic, Listed, Solvent;
    if RegProxy(b, v, isProxy, scale).Commit? { RegProxyExactIff(b, v, isProxy, scale); }
  }

  /** A fresh voter row casts nothing. */
  lemma {:induction false} NewVoterClean(b: Book, v: Name, isProxy: bool)
    requires Clean(b) && v !in b.voters && v != NO_NAME
    ensures Clean(b.(voters := b.voters[v := NEW_VOTER.(isProxy := isProxy)]))
  {
    hide RSum, ClientShare, BallotShare;
    var row := NEW_VOTER.(isProxy := isProxy);
    var b' := b.(voters := b.voters[v := row]);
    RegProxySound(b, v, isProxy, 0.0);
    forall q | q in b'.voters ensures ProxyGap(b', NO_NAME, q) == 0.0 {
      FreshShares(row, v, q);
      ClientSumRow(b.voters, NO_NAME, q, v, row);
      if q == v { NoClients(b, v); } else { assert ProxyGap(b, NO_NAME, q) == 0.0; }
    }
    forall p | p in b'.producers ensures ProducerGap(b', NO_NAME, p) == 0.0 {
      assert ProducerGap(b, NO_NAME, p) == 0.0;
      FreshShares(row, v, p);
      BallotSumRow(b.voters, NO_NAME, p, v, row);
    }
    forall u | u in b'.voters ensures Registered(b'.voters[u].producers, b'.producers) {
      if u != v { assert Registered(b.voters[u].producers, b.producers); }
    }
  }

  lemma {:induction false} FreshShares(row: Voter, v: Name, x: Name)
    requires row.last == 0.0
    ensures ClientShare(row, v, NO_NAME, x) == 0.0 && BallotShare(row, v, NO_NAME, x) == 0.0
  {
  }

  /** Nobody uses an account without a voter row as a proxy. */
  lemma {:induction false} NoClients(b: Book, v: Name)
    requires Sound(b) && v !in b.voters && v != NO_NAME
    ensures ClientSum(b.voters, NO_NAME, v) == 0.0
  {
    var g := Edges(b.voters);
    forall u | u in b.voters ensures ClientShare(b.voters[u], u, NO_NAME, v) == 0.0 {
      if b.voters[u].proxy == v { Descends(g, u); }
    }
    RSumZero(ClientColumn(b.voters, NO_NAME, v));
  }
}
