/** Concrete books on which the vote contract does not keep what its caches and its asserts suggest. */
module VoteCases {
  import opened Base
  import opened Votes
  import opened VoteSums
  import opened VoteExact
  import S = Staking

  lemma {:induction false} RSumPair(m: map<Name, real>, x: Name, y: Name)
    requires m.Keys == {x, y} && x != y
    ensures RSum(m) == m[x] + m[y]
  {
    RSumRemove(m, x);
    RSumRemove(m - {x}, y);
    assert m - {x} - {y} == map[];
  }

  lemma {:induction false} RSumOne(m: map<Name, real>, x: Name)
    requires m.Keys == {x}
    ensures RSum(m) == m[x]
  {
    RSumRemove(m, x);
    assert m - {x} == map[];
  }

  // ---------------------------------------------------------------- a sum becomes inexact

  /** Proxy 5 has voted for producer 7 with the weight of its one client, 6. */
  function Delegated(): Book {
    Book(map[5 := Voter(NO_NAME, [7], 0, 1.0, 1.0, true), 6 := Voter(5, [], 1, 1.0, 0.0, false)],
         map[7 := Producer(1.0, 1, true, "", 0, 0, 0)], 1.0)
  }

  /** Whoever uses a proxy uses one with a smaller name. */
  lemma {:induction false} DescendingSound(b: Book)
    requires NO_NAME !in b.voters
    requires forall v <- b.voters :: b.voters[v].proxy != NO_NAME ==> b.voters[v].proxy in b.voters && b.voters[v].proxy < v
    requires forall v <- b.voters :: RowSound(b.voters[v])
    ensures Sound(b)
  {
    var rank: map<Name, nat> := map v: Name | v in b.voters :: v;
    var g := Edges(b.voters);
    forall v | v in g ensures LinkDescends(g, rank, v) {}
    assert Ranked(g, rank);
  }

  lemma {:induction false} DelegatedGaps()
    ensures var b := Delegated();
      && ProxyGap(b, NO_NAME, 5) == 0.0 && ProxyGap(b, NO_NAME, 6) == 0.0 && ProducerGap(b, NO_NAME, 7) == 0.0
      && b.weight == VoteTotal(b.producers)
  {
    hide RSum;
    var b := Delegated();
    var five, six, votes := ClientColumn(b.voters, NO_NAME, 5), ClientColumn(b.voters, NO_NAME, 6), BallotColumn(b.voters, NO_NAME, 7);
    assert five.Keys == {5, 6} && six.Keys == {5, 6} && votes.Keys == {5, 6};
    RSumPair(five, 5, 6);
    RSumPair(six, 5, 6);
    RSumPair(votes, 5, 6);
    assert VoteColumn(b.producers).Keys == {7};
    RSumOne(VoteColumn(b.producers), 7);
  }

  lemma {:induction false} DelegatedExact()
    ensures Exact(Delegated())
  {
    hide ProxyGap, ProducerGap, VoteTotal;
    DelegatedGaps();
    var b := Delegated();
    assert b.voters.Keys == {5, 6} && b.producers.Keys == {7};
  }

  lemma {:induction false} DelegatedClean()
    ensures Clean(Delegated())
  {
    hide Exact, Sound;
    var b := Delegated();
    DescendingSound(b);
    DelegatedExact();
    forall v | v in b.voters ensures Registered(b.voters[v].producers, b.producers) {}
  }

  /** Proxy 5 gives up being one: its weight falls by one, which counts as small, so producer 7 keeps a vote
      that nobody casts any more. */
  lemma {:induction false} VoteLeftBehind()
    ensures var b := Delegated();
      && Clean(b) && RegProxy(b, 5, false, 1.0).Commit?
      && var b' := RegProxy(b, 5, false, 1.0).value; 7 in b'.producers && ProducerGap(b', NO_NAME, 7) == 1.0 && !Exact(b')
  {
    hide RSum, ProducerGap;
    DelegatedClean();
    var b := Delegated();
    var f := Flag(b, 5, false);
    FlagClean(b, 5, false);
    var r := Trail(f, 5, Drift(f, 5, 1.0), 1.0);
    assert Drift(f, 5, 1.0) == -1.0 && r == Rest(5, -1.0);
    OffTheMap(f, 5);
    PropagateProducerGap(f, 5, 1.0, NO_NAME, 7);
    assert ProducerGap(f, NO_NAME, 7) == 0.0;
    WalkTrail(f, 5, 1.0);
  }

  /** Proxy 5 is owed one unit of weight it was never told of, and producer 7 is registered. */
  function Indebted(): Book {
    Book(map[5 := Voter(NO_NAME, [], 0, -1.0, -1.0, true)], map[7 := Producer(0.0, 1, true, "", 0, 0, 0)], 0.0)
  }

  /** Once a weight is negative, sums move apart without any change being dropped: a vote cast with it is stored
      and recounted but not added. So the changes dropped do not bound the gaps of a book that is not exact. */
  lemma {:induction false} NegativeVoteUncounted()
    ensures var b := Indebted();
      && Sound(b) && 7 in b.producers && ProducerGap(b, NO_NAME, 7) == 0.0
      && LeaveTrail(b, b.voters[5], 1.0).Dropped() == 0.0 && JoinTrail(b, NO_NAME, -1.0, 1.0).Dropped() == 0.0
      && UpdateVotes(b, 5, NO_NAME, [7], true, 1.0).Commit?
      && var b' := UpdateVotes(b, 5, NO_NAME, [7], true, 1.0).value; 7 in b'.producers && ProducerGap(b', NO_NAME, 7) == 1.0
  {
    hide RSum, Sound;
    var b := Indebted();
    DescendingSound(b);
    var b' := UpdateVotes(b, 5, NO_NAME, [7], true, 1.0).value;
    var before, after := BallotColumn(b.voters, NO_NAME, 7), BallotColumn(b'.voters, NO_NAME, 7);
    assert before.Keys == {5} && after.Keys == {5};
    RSumOne(before, 5);
    RSumOne(after, 5);
  }

  // ---------------------------------------------------------------- a stored ballot that cannot be re-applied

  /** The three voters of the run: proxy 5, its client 6, and 6's client 8. No producer is registered. */
  function Three(five: Voter, six: Voter, eight: Voter): Book {
    Book(map[5 := five, 6 := six, 8 := eight], map[], 0.0)
  }

  predicate Chained(five: Voter, six: Voter, eight: Voter) {
    && five.proxy == NO_NAME && (six.proxy == NO_NAME || (six.proxy == 5 && !six.isProxy))
    && (eight.proxy == NO_NAME || (eight.proxy == 6 && !eight.isProxy))
    && six.producers == eight.producers == [] && (five.producers == [] || five.producers == [7])
  }

  lemma {:induction false} ThreeSound(five: Voter, six: Voter, eight: Voter)
    requires Chained(five, six, eight)
    ensures Sound(Three(five, six, eight))
  {
    hide Sound;
    var b := Three(five, six, eight);
    forall v | v in b.voters ensures RowSound(b.voters[v]) {}
    DescendingSound(b);
  }

  /** A walk that stops at once, without producers to tell. */
  lemma {:induction false} StopsAtOnce(b: Book, v: Name, scale: real)
    requires Sound(b) && v in b.voters && b.producers == map[] && b.weight == 0.0
    requires Small(Drift(b, v, scale)) || (b.voters[v].proxy == NO_NAME && b.voters[v].producers == [])
    ensures Walk(b, v, scale).book == SetLast(b, v, CurrentWeight(b.voters[v], scale)) && Walk(b, v, scale).delivered
  {
    var b1 := SetLast(b, v, CurrentWeight(b.voters[v], scale));
    assert AddVotes(b1, [], Drift(b, v, scale)) == b1;
  }

  /** With no registered producers the last phase changes nothing. */
  lemma {:induction false} NothingToElect(b: Book, row: Voter, producers: seq<Name>, w: real, voting: bool)
    requires b.producers == map[] && (producers == [] || w < 0.0)
    ensures Elect(b, row, producers, w, voting) == Commit(b)
  {
    var into := if w >= 0.0 then producers else [];
    assert Deltas(b.producers, OldBallot(row), row.last, into, w) == map[];
    assert Recast(b, OldBallot(row), row.last, into, w).producers == map[];
  }

  /** A proxy that has been told of a change `d` of a client's weight. */
  function Told(row: Voter, d: real, scale: real): Voter {
    var r := row.(proxied := row.proxied + d);
    r.(last := CurrentWeight(r, scale))
  }

  /** The change goes no further than `row`. */
  predicate Keeps(row: Voter, d: real, scale: real) {
    Small(Told(row, d, scale).last - row.last) || (row.proxy == NO_NAME && row.producers == [])
  }

  lemma {:induction false} ShiftStops(b: Book, n: Name, d: real, scale: real)
    requires Sound(b) && n in b.voters && b.producers == map[] && b.weight == 0.0 && Keeps(b.voters[n], d, scale)
    ensures var s := Shift(b, n, d, scale);
      s.delivered && s.book == b.(voters := b.voters[n := Told(b.voters[n], d, scale)])
  {
    hide Walk;
    var s := Bump(b, n, d);
    SameBallotsKeepsSound(b, s);
    StopsAtOnce(s, n, scale);
  }

  /** A vote that leaves one proxy, if there is one, and joins another, if there is one. */
  lemma {:induction false} Revote(b: Book, v: Name, proxy: Name, voting: bool, scale: real)
    requires Sound(b) && v in b.voters && b.producers == map[] && b.weight == 0.0
    requires var row := b.voters[v]; !row.isProxy && row.producers == [] && CurrentWeight(row, scale) >= 0.0
    requires Leave(b, b.voters[v], scale).Commit? && Leave(b, b.voters[v], scale).value.producers == map[]
    requires Leave(b, b.voters[v], scale).value.weight == 0.0
    requires b.voters[v] == Leave(b, b.voters[v], scale).value.voters[v]
    requires proxy != NO_NAME ==>
      && proxy in b.voters && proxy != v && (voting ==> b.voters[proxy].isProxy)
      && Keeps(Leave(b, b.voters[v], scale).value.voters[proxy], CurrentWeight(b.voters[v], scale), scale)
    ensures var row, left := b.voters[v], Leave(b, b.voters[v], scale).value;
      var w := CurrentWeight(row, scale);
      UpdateVotes(b, v, proxy, [], voting, scale) == Commit(left.(voters :=
        (if proxy == NO_NAME then left.voters else left.voters[proxy := Told(left.voters[proxy], w, scale)])
        [v := row.(last := w, proxy := proxy)]))
  {
    hide Walk, Elect, Leave, Keeps, Sound, Shift, CurrentWeight;
    var row, left := b.voters[v], Leave(b, b.voters[v], scale).value;
    var w := CurrentWeight(row, scale);
    if proxy != NO_NAME { ShiftStops(left, proxy, w, scale); }
    NothingToElect(Join(left, proxy, w, voting, scale).value, row, [], w, voting);
  }

  // What each step leaves.
  const P0 := Voter(NO_NAME, [], 0, 0.0, 0.0, true)
  const P1 := Voter(NO_NAME, [], 0, 1.0, 1.0, true)
  const P2 := Voter(NO_NAME, [], 0, -1.0, -1.0, true)
  const P3 := Voter(NO_NAME, [7], 0, -1.0, -1.0, true)
  const Q0 := Voter(NO_NAME, [], 1, 1.0, 0.0, true)
  const Q1 := Voter(NO_NAME, [], 1, 2.0, 1.0, true)
  const Q2 := Voter(NO_NAME, [], 1, 1.0, 1.0, false)
  const Q3 := Voter(5, [], 1, 1.0, 1.0, false)
  const Q4 := Voter(5, [], 1, 2.0, 4.0, false)
  const Q5 := Voter(NO_NAME, [], 1, 2.0, 4.0, false)
  const C0 := Voter(NO_NAME, [], 1, 0.0, 0.0, false)
  const C1 := Voter(6, [], 1, 1.0, 0.0, false)
  const C2 := Voter(6, [], 2, 4.0, 0.0, false)

  const EARLY := S.Env({}, 0, 1.0)
  const LATE := S.Env({}, 0, 2.0)

  const EMPTY := Book(map[], map[], 0.0)
  const ONE := Book(map[6 := C0], map[], 0.0)
  const TWO := Book(map[6 := C0, 8 := C0], map[], 0.0)

  /** Accounts 6 and 8 stake one unit each. */
  lemma {:induction false} TwoStake()
    ensures Sound(EMPTY) && S.StakeVotes(EMPTY, EARLY, 6, 1) == Commit(ONE)
    ensures Sound(ONE) && S.StakeVotes(ONE, EARLY, 8, 1) == Commit(TWO)
  {
    hide Sound, UpdateVotes;
    DescendingSound(EMPTY);
    DescendingSound(ONE);
    assert EMPTY.voters[6 := C0] == ONE.voters && ONE.voters[8 := C0] == TWO.voters;
  }

  /** 5 and 6 become proxies. */
  lemma {:induction false} ProxiesRegister()
    ensures Sound(TWO) && RegProxy(TWO, 5, true, 1.0) == Commit(Three(P0, C0, C0))
    ensures Sound(Three(P0, C0, C0)) && RegProxy(Three(P0, C0, C0), 6, true, 1.0) == Commit(Three(P0, Q0, C0))
  {
    hide Sound, Walk;
    DescendingSound(TWO);
    ThreeSound(P0, C0, C0);
    assert TWO.voters[5 := P0] == Three(P0, C0, C0).voters;
    var f := Flag(Three(P0, C0, C0), 6, true);
    FlagSound(Three(P0, C0, C0), 6, true);
    StopsAtOnce(f, 6, 1.0);
    assert SetLast(f, 6, 1.0).voters == Three(P0, Q0, C0).voters;
  }

  /** 8 chooses 6 as its proxy. */
  lemma {:induction false} EightJoins()
    ensures Sound(Three(P0, Q0, C0)) && UpdateVotes(Three(P0, Q0, C0), 8, 6, [], true, 1.0) == Commit(Three(P0, Q1, C1))
  {
    hide Sound, UpdateVotes;
    ThreeSound(P0, Q0, C0);
    Revote(Three(P0, Q0, C0), 8, 6, true, 1.0);
    assert Told(Q0, 1.0, 1.0) == Q1;
    assert Three(P0, Q0, C0).voters[6 := Q1][8 := C1] == Three(P0, Q1, C1).voters;
  }

  /** 6 gives up being a proxy. */
  lemma {:induction false} SixRetires()
    ensures Sound(Three(P0, Q1, C1)) && RegProxy(Three(P0, Q1, C1), 6, false, 1.0) == Commit(Three(P0, Q2, C1))
  {
    hide Sound, Walk;
    ThreeSound(P0, Q1, C1);
    var f := Flag(Three(P0, Q1, C1), 6, false);
    FlagSound(Three(P0, Q1, C1), 6, false);
    StopsAtOnce(f, 6, 1.0);
    assert SetLast(f, 6, 1.0).voters == Three(P0, Q2, C1).voters;
  }

  /** 6 chooses 5 as its own proxy. */
  lemma {:induction false} SixJoins()
    ensures Sound(Three(P0, Q2, C1)) && UpdateVotes(Three(P0, Q2, C1), 6, 5, [], true, 1.0) == Commit(Three(P1, Q3, C1))
  {
    hide Sound, UpdateVotes;
    ThreeSound(P0, Q2, C1);
    Revote(Three(P0, Q2, C1), 6, 5, true, 1.0);
    assert Told(P0, 1.0, 1.0) == P1;
    assert Three(P0, Q2, C1).voters[5 := P1][6 := Q3] == Three(P1, Q3, C1).voters;
  }

  /** Later, at a larger weight factor, 8 stakes one more unit: 6's own growth of 1.0 is small and 5 is never
      told. */
  lemma {:induction false} EightStakes()
    ensures Sound(Three(P1, Q3, C1)) && S.StakeVotes(Three(P1, Q3, C1), LATE, 8, 1) == Commit(Three(P1, Q4, C2))
  {
    hide Sound, UpdateVotes, Shift;
    ThreeSound(P1, Q3, C1);
    var staked, between := Voter(6, [], 2, 1.0, 0.0, false), Voter(5, [], 1, 2.0, 0.0, false);
    var b := Three(P1, Q3, staked);
    ThreeSound(P1, Q3, staked);
    assert Three(P1, Q3, C1).voters[8 := staked] == b.voters;
    assert Told(Q3, -1.0, 2.0) == between && Told(between, 4.0, 2.0) == Q4;
    ShiftStops(b, 6, -1.0, 2.0);
    assert b.voters[6 := between] == Three(P1, between, staked).voters;
    Revote(b, 8, 6, false, 2.0);
    assert Three(P1, between, staked).voters[6 := Q4][8 := C2] == Three(P1, Q4, C2).voters;
  }

  /** Then 6 leaves 5 and takes its whole weight away. */
  lemma {:induction false} SixLeaves()
    ensures Sound(Three(P1, Q4, C2)) && UpdateVotes(Three(P1, Q4, C2), 6, NO_NAME, [], true, 2.0) == Commit(Three(P2, Q5, C2))
  {
    hide Sound, UpdateVotes, Shift;
    ThreeSound(P1, Q4, C2);
    var b := Three(P1, Q4, C2);
    assert Told(P1, -2.0, 2.0) == P2;
    ShiftStops(b, 5, -2.0, 2.0);
    assert b.voters[5 := P2] == Three(P2, Q4, C2).voters;
    Revote(b, 6, NO_NAME, true, 2.0);
    assert Three(P2, Q4, C2).voters[6 := Q5] == Three(P2, Q5, C2).voters;
  }

  /** 5, whose weight is now negative, votes for 7, which is not registered: the list is stored unchecked.
      From then on nothing can be staked to 5. */
  lemma {:induction false} BallotStranded()
    ensures Sound(Three(P2, Q5, C2)) && Sound(Three(P3, Q5, C2))
    ensures UpdateVotes(Three(P2, Q5, C2), 5, NO_NAME, [7], true, 2.0) == Commit(Three(P3, Q5, C2))
    ensures S.StakeVotes(Three(P3, Q5, C2), LATE, 5, 1).Abort?
    ensures Listed(Three(P2, Q5, C2)) && !Listed(Three(P3, Q5, C2))
  {
    hide Sound, Walk, Elect;
    ThreeSound(P2, Q5, C2);
    ThreeSound(P3, Q5, C2);
    var b, b' := Three(P2, Q5, C2), Three(P3, Q5, C2);
    NothingToElect(b, P2, [7], -1.0, true);
    assert SetBallot(b, 5, -1.0, NO_NAME, [7]).voters == b'.voters;
    assert 7 in [7] && !Registered(b'.voters[5].producers, b'.producers);
    forall v | v in b.voters ensures Registered(b.voters[v].producers, b.producers) {}
    var staked := Voter(NO_NAME, [7], 1, -1.0, -1.0, true);
    assert b'.voters[5 := staked] == Three(staked, Q5, C2).voters;
    ThreeSound(staked, Q5, C2);
    Unelectable(Three(staked, Q5, C2), staked);
  }

  lemma {:induction false} Unelectable(b: Book, row: Voter)
    requires b.producers == map[]
    ensures Elect(b, row, [7], 1.0, false).Abort?
  {
    assert 7 in [7];
  }

  /** The whole run, from no voters at all to a stake that aborts over a stored ballot. */
  lemma {:induction false} StrandedRun()
    ensures Sound(EMPTY) && S.StakeVotes(EMPTY, EARLY, 6, 1) == Commit(ONE)
    ensures Sound(ONE) && S.StakeVotes(ONE, EARLY, 8, 1) == Commit(TWO)
    ensures Sound(TWO) && RegProxy(TWO, 5, true, 1.0) == Commit(Three(P0, C0, C0))
    ensures Sound(Three(P0, C0, C0)) && RegProxy(Three(P0, C0, C0), 6, true, 1.0) == Commit(Three(P0, Q0, C0))
    ensures Sound(Three(P0, Q0, C0)) && UpdateVotes(Three(P0, Q0, C0), 8, 6, [], true, 1.0) == Commit(Three(P0, Q1, C1))
    ensures Sound(Three(P0, Q1, C1)) && RegProxy(Three(P0, Q1, C1), 6, false, 1.0) == Commit(Three(P0, Q2, C1))
    ensures Sound(Three(P0, Q2, C1)) && UpdateVotes(Three(P0, Q2, C1), 6, 5, [], true, 1.0) == Commit(Three(P1, Q3, C1))
    ensures Sound(Three(P1, Q3, C1)) && S.StakeVotes(Three(P1, Q3, C1), LATE, 8, 1) == Commit(Three(P1, Q4, C2))
    ensures Sound(Three(P1, Q4, C2)) && UpdateVotes(Three(P1, Q4, C2), 6, NO_NAME, [], true, 2.0) == Commit(Three(P2, Q5, C2))
    ensures Sound(Three(P2, Q5, C2)) && UpdateVotes(Three(P2, Q5, C2), 5, NO_NAME, [7], true, 2.0) == Commit(Three(P3, Q5, C2))
    ensures Sound(Three(P3, Q5, C2)) && S.StakeVotes(Three(P3, Q5, C2), LATE, 5, 1).Abort?
  {
    hide *;
    TwoStake();
    ProxiesRegister();
    EightJoins();
    SixRetires();
    SixJoins();
    EightStakes();
    SixLeaves();
    BallotStranded();
  }
}
