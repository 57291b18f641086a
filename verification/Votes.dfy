/** Proxy and producer votes: the voters and producers tables, the propagation of weight
    along proxy links, and the recursive walk of propagate_weight_change. Doubles are exact
    reals here; the time factor of `stake2vote` is a parameter, `scale`, of every action. */
module Votes {
  import opened Base

  /** voter_info. */
  datatype Voter = Voter(proxy: Name, producers: seq<Name>, staked: int,
                         last: real, proxied: real, isProxy: bool)

  /** producer_info; key 0 is the default public key. */
  datatype Producer = Producer(votes: real, key: nat, active: bool, url: string,
                               unpaid: nat, lastClaim: nat, location: nat)

  const NEW_VOTER := Voter(NO_NAME, [], 0, 0.0, 0.0, false)

  type Voters = map<Name, Voter>
  type Producers = map<Name, Producer>

  /** The two tables and `total_producer_vote_weight`. */
  datatype Book = Book(voters: Voters, producers: Producers, weight: real)

  /** stake2vote: the stake times a power of two that depends only on the time of the action. */
  function StakeWeight(staked: int, scale: real): real { staked as real * scale }

  function CurrentWeight(v: Voter, scale: real): real {
    StakeWeight(v.staked, scale) + if v.isProxy then v.proxied else 0.0
  }

  // ---------------------------------------------------------------- the proxy graph

  type Graph = map<Name, Name>

  ghost function Edges(voters: Voters): Graph { map v | v in voters :: voters[v].proxy }

  ghost predicate LinkDescends(g: Graph, rank: map<Name, nat>, v: Name)
    requires v in g
  {
    v in rank && (g[v] != NO_NAME ==> g[v] in g && g[v] in rank && rank[g[v]] < rank[v])
  }

  ghost predicate Ranked(g: Graph, rank: map<Name, nat>) {
    forall v <- g {:trigger LinkDescends(g, rank, v)} :: LinkDescends(g, rank, v)
  }

  ghost predicate Acyclic(g: Graph) { exists rank :: Ranked(g, rank) }

  ghost function Rank(g: Graph): (rank: map<Name, nat>)
    requires Acyclic(g)
    ensures Ranked(g, rank)
  {
    var rank :| Ranked(g, rank); rank
  }

  /** The rank of `v` among the voters of `g`; every proxy link lowers it. */
  ghost function Height(g: Graph, v: Name): nat
    requires Acyclic(g) && v in g
  {
    assert LinkDescends(g, Rank(g), v);
    Rank(g)[v]
  }

  lemma {:induction false} Descends(g: Graph, v: Name)
    requires Acyclic(g) && v in g && g[v] != NO_NAME
    ensures g[v] in g && Height(g, g[v]) < Height(g, v)
  {
    assert LinkDescends(g, Rank(g), v);
  }

  /** `x` is reached from `v` by following proxies, `v` itself included. */
  ghost predicate OnChain(g: Graph, v: Name, x: Name)
    requires Acyclic(g) && v in g
    decreases Height(g, v)
  {
    v == x || (g[v] != NO_NAME && (Descends(g, v); OnChain(g, g[v], x)))
  }

  lemma {:induction false} ChainDescends(g: Graph, v: Name, x: Name)
    requires Acyclic(g) && v in g && OnChain(g, v, x)
    ensures x in g && Height(g, x) <= Height(g, v)
    decreases Height(g, v)
  {
    if v != x {
      Descends(g, v);
      ChainDescends(g, g[v], x);
    }
  }

  /** A path along proxy links. */
  ghost predicate ProxyPath(voters: Voters, path: seq<Name>) {
    && (forall i | 0 <= i < |path| :: path[i] in voters)
    && (forall i | 0 <= i < |path| - 1 :: voters[path[i]].proxy == path[i + 1])
  }

  /** No proxy path of one link or more comes back to where it started. */
  lemma {:induction false} NoProxyCycle(voters: Voters, path: seq<Name>)
    requires Acyclic(Edges(voters)) && NO_NAME !in voters
    requires ProxyPath(voters, path) && |path| >= 2
    ensures path[0] != path[|path| - 1]
    ensures Height(Edges(voters), path[|path| - 1]) < Height(Edges(voters), path[0])
    decreases |path|
  {
    assert path[0] in voters && path[1] in voters;
    var g := Edges(voters);
    assert g[path[0]] == path[1];
    Descends(g, path[0]);
    if |path| > 2 { NoProxyCycle(voters, path[1..]); }
  }

  /** Pointing `v` at a voter without a proxy keeps the graph acyclic, whoever points at `v`. */
  lemma {:induction false} AcyclicLink(g: Graph, v: Name, p: Name)
    requires Acyclic(g)
    requires p in g && g[p] == NO_NAME && p != v
    ensures Acyclic(g[v := p])
  {
    var rank := Rank(g);
    var g' := g[v := p];
    var rank' := map u | u in g' ::
      if g'[u] == NO_NAME then 0 else if u in rank then rank[u] + 1 else 1;
    forall u | u in g' ensures LinkDescends(g', rank', u) {
      if u in g { assert LinkDescends(g, rank, u); }
      if g'[u] in g { assert LinkDescends(g, rank, g'[u]); }
    }
    assert Ranked(g', rank');
  }

  /** Dropping a link, or adding an isolated voter, keeps the graph acyclic. */
  lemma {:induction false} AcyclicUnlink(g: Graph, v: Name)
    requires Acyclic(g)
    ensures Acyclic(g[v := NO_NAME])
  {
    var rank := Rank(g);
    var g' := g[v := NO_NAME];
    var rank' := if v in g then rank else rank[v := 0];
    forall u | u in g' ensures LinkDescends(g', rank', u) {
      if u in g { assert LinkDescends(g, rank, u); }
    }
    assert Ranked(g', rank');
  }

  // ---------------------------------------------------------------- well-formed tables

  predicate Increasing(ps: seq<Name>) {
    forall i, j | 0 <= i < j < |ps| :: ps[i] < ps[j]
  }

  predicate Registered(ps: seq<Name>, producers: Producers) {
    forall p <- ps :: p in producers
  }

  /** What update_votes demands of a stored ballot and regproxy of a stored flag. */
  ghost predicate RowSound(v: Voter) {
    && (v.isProxy ==> v.proxy == NO_NAME)
    && (v.proxy != NO_NAME ==> v.producers == [])
    && |v.producers| <= 30
    && Increasing(v.producers)
  }

  ghost predicate Sound(b: Book) {
    && NO_NAME !in b.voters
    && Acyclic(Edges(b.voters))
    && (forall v <- b.voters {:trigger RowSound(b.voters[v])} :: RowSound(b.voters[v]))
  }

  /** Only `last` and `proxied` may differ. */
  ghost predicate SameBallots(voters: Voters, voters': Voters) {
    && voters'.Keys == voters.Keys
    && forall v <- voters ::
      && voters'[v].proxy == voters[v].proxy && voters'[v].producers == voters[v].producers
      && voters'[v].staked == voters[v].staked && voters'[v].isProxy == voters[v].isProxy
  }

  /** Only the vote totals may differ. */
  ghost predicate SameRegister(ps: Producers, ps': Producers) {
    && ps'.Keys == ps.Keys
    && forall p <- ps ::
      && ps'[p].key == ps[p].key && ps'[p].active == ps[p].active && ps'[p].url == ps[p].url
      && ps'[p].unpaid == ps[p].unpaid && ps'[p].lastClaim == ps[p].lastClaim
      && ps'[p].location == ps[p].location
  }

  lemma {:induction false} SameBallotsKeepsSound(b: Book, b': Book)
    requires Sound(b)
    requires SameBallots(b.voters, b'.voters)
    ensures Sound(b') && Edges(b'.voters) == Edges(b.voters)
  {
    assert Edges(b'.voters) == Edges(b.voters);
    forall v | v in b'.voters ensures RowSound(b'.voters[v]) {
      assert RowSound(b.voters[v]);
    }
  }

  // ---------------------------------------------------------------- propagation

  ghost function Bump(b: Book, q: Name, d: real): Book
    requires q in b.voters
  {
    b.(voters := b.voters[q := b.voters[q].(proxied := b.voters[q].proxied + d)])
  }

  lemma {:induction false} BumpSound(b: Book, q: Name, d: real)
    requires Sound(b) && q in b.voters
    ensures Sound(Bump(b, q, d)) && Edges(Bump(b, q, d).voters) == Edges(b.voters)
  {
    SameBallotsKeepsSound(b, Bump(b, q, d));
  }

  ghost function SetLast(b: Book, v: Name, w: real): Book
    requires v in b.voters
  {
    b.(voters := b.voters[v := b.voters[v].(last := w)])
  }

  /** `d` added up `n` times. */
  ghost function Times(n: nat, d: real): real { if n == 0 then 0.0 else Times(n - 1, d) + d }

  /** Every producer on the ballot gains `d`. */
  ghost function AddVotes(b: Book, ps: seq<Name>, d: real): Book {
    b.(producers := map p | p in b.producers ::
                      if p in ps then b.producers[p].(votes := b.producers[p].votes + d) else b.producers[p],
       weight := b.weight + Times(|ps|, d))
  }

  function Drift(b: Book, v: Name, scale: real): real
    requires v in b.voters
  {
    CurrentWeight(b.voters[v], scale) - b.voters[v].last
  }

  predicate Small(d: real) { -1.0 <= d <= 1.0 }

  /** One link of the walk: `v` takes its new weight and its proxy is credited with the change. */
  ghost function PassOn(b: Book, v: Name, scale: real): Book
    requires v in b.voters && b.voters[v].proxy in b.voters
  {
    Bump(SetLast(b, v, CurrentWeight(b.voters[v], scale)), b.voters[v].proxy, Drift(b, v, scale))
  }

  lemma {:induction false} PassOnSound(b: Book, v: Name, scale: real)
    requires Sound(b) && v in b.voters && b.voters[v].proxy != NO_NAME
    ensures b.voters[v].proxy in b.voters && b.voters[v].proxy != v
    ensures Height(Edges(b.voters), b.voters[v].proxy) < Height(Edges(b.voters), v)
    ensures var b' := PassOn(b, v, scale);
      Sound(b') && Edges(b'.voters) == Edges(b.voters) && SameBallots(b.voters, b'.voters)
  {
    Descends(Edges(b.voters), v);
    SameBallotsKeepsSound(b, PassOn(b, v, scale));
  }

  /** The last step of the walk: `v` takes its new weight and a large change reaches its ballot. */
  ghost function Stop(b: Book, v: Name, scale: real): (b': Book)
    requires v in b.voters
    ensures SameBallots(b.voters, b'.voters) && SameRegister(b.producers, b'.producers)
  {
    var d := Drift(b, v, scale);
    var b1 := SetLast(b, v, CurrentWeight(b.voters[v], scale));
    if Small(d) then b1 else AddVotes(b1, b.voters[v].producers, d)
  }

  /** What a walk leaves behind: the new tables, whether it ended without hitting the "producer
      not found" assert, the voter it stopped at and the change the "small changes" test dropped
      there. */
  datatype Walked = Walked(book: Book, delivered: bool, stop: Name, cut: real)

  /** propagate_weight_change: the walk from `v` along proxy links, taken top-down. */
  ghost function Walk(b: Book, v: Name, scale: real): (w: Walked)
    requires Sound(b) && v in b.voters
    ensures Sound(w.book) && Edges(w.book.voters) == Edges(b.voters)
    ensures SameBallots(b.voters, w.book.voters) && SameRegister(b.producers, w.book.producers)
    ensures w.stop in b.voters && Small(w.cut)
    decreases Height(Edges(b.voters), v)
  {
    var d := Drift(b, v, scale);
    if !Small(d) && b.voters[v].proxy != NO_NAME then
      PassOnSound(b, v, scale);
      Walk(PassOn(b, v, scale), b.voters[v].proxy, scale)
    else
      SameBallotsKeepsSound(b, Stop(b, v, scale));
      Walked(Stop(b, v, scale),
             Small(d) || Registered(b.voters[v].producers, b.producers),
             v,
             if Small(d) then d else 0.0)
  }

  /** Voters off the chain keep their whole row. */
  lemma {:induction false} OffChain(b: Book, v: Name, scale: real, x: Name)
    requires Sound(b) && v in b.voters && x in b.voters
    requires !OnChain(Edges(b.voters), v, x)
    ensures Walk(b, v, scale).book.voters[x] == b.voters[x]
    decreases Height(Edges(b.voters), v)
  {
    if !Small(Drift(b, v, scale)) && b.voters[v].proxy != NO_NAME {
      PassOnSound(b, v, scale);
      OffChain(PassOn(b, v, scale), b.voters[v].proxy, scale, x);
    }
  }

  lemma {:induction false} UpdatesSwap(m: Voters, q: Name, x: Voter, v: Name, y: Voter)
    requires q != v
    ensures m[q := x][v := y] == m[v := y][q := x]
  {
  }

  lemma {:induction false} SetLastStop(b: Book, q: Name, scale: real, v: Name, w: real)
    requires q in b.voters && v in b.voters && q != v
    ensures Stop(SetLast(b, v, w), q, scale) == SetLast(Stop(b, q, scale), v, w)
  {
    var x := b.voters[q].(last := CurrentWeight(b.voters[q], scale));
    UpdatesSwap(b.voters, q, x, v, b.voters[v].(last := w));
  }

  lemma {:induction false} SetLastPassOn(b: Book, q: Name, scale: real, v: Name, w: real)
    requires q in b.voters && v in b.voters && b.voters[q].proxy in b.voters
    requires q != v && b.voters[q].proxy != v && b.voters[q].proxy != q
    ensures PassOn(SetLast(b, v, w), q, scale) == SetLast(PassOn(b, q, scale), v, w)
  {
    var n := b.voters[q].proxy;
    var x := b.voters[q].(last := CurrentWeight(b.voters[q], scale));
    var y := b.voters[v].(last := w);
    var z := b.voters[n].(proxied := b.voters[n].proxied + Drift(b, q, scale));
    UpdatesSwap(b.voters, q, x, v, y);
    UpdatesSwap(b.voters[q := x], n, z, v, y);
  }

  /** The source stores `v`'s new weight after walking on; off the chain the order is immaterial. */
  lemma {:induction false} SetLastCommutes(b: Book, q: Name, scale: real, v: Name, w: real)
    requires Sound(b) && q in b.voters && v in b.voters
    requires !OnChain(Edges(b.voters), q, v)
    ensures Sound(SetLast(b, v, w))
    ensures var a, a' := Walk(b, q, scale), Walk(SetLast(b, v, w), q, scale);
      a' == a.(book := SetLast(a.book, v, w))
    decreases Height(Edges(b.voters), q)
  {
    var b1 := SetLast(b, v, w);
    SameBallotsKeepsSound(b, b1);
    if !Small(Drift(b, q, scale)) && b.voters[q].proxy != NO_NAME {
      PassOnSound(b, q, scale);
      SetLastPassOn(b, q, scale, v, w);
      SetLastCommutes(PassOn(b, q, scale), b.voters[q].proxy, scale, v, w);
    } else {
      SetLastStop(b, q, scale, v, w);
    }
  }

  /** Weight given to or taken from a proxy, and passed on by it. */
  ghost function Shift(b: Book, q: Name, d: real, scale: real): (w: Walked)
    requires Sound(b) && q in b.voters
    ensures Sound(w.book) && Edges(w.book.voters) == Edges(b.voters)
    ensures SameBallots(b.voters, w.book.voters) && SameRegister(b.producers, w.book.producers)
  {
    SameBallotsKeepsSound(b, Bump(b, q, d));
    Walk(Bump(b, q, d), q, scale)
  }

  /** In a sound book a voter's proxy is another voter. */
  lemma {:induction false} ProxyExists(b: Book, v: Name)
    requires Sound(b) && v in b.voters && b.voters[v].proxy != NO_NAME
    ensures b.voters[v].proxy in b.voters && b.voters[v].proxy != v
    ensures !OnChain(Edges(b.voters), b.voters[v].proxy, v)
  {
    var g := Edges(b.voters);
    Descends(g, v);
    if OnChain(g, g[v], v) { ChainDescends(g, g[v], v); }
  }

  // ---------------------------------------------------------------- casting a vote

  /** The change that replacing ballot `out` at weight `last` by ballot `into` at `w` makes to `p`. */
  function Change(out: seq<Name>, last: real, into: seq<Name>, w: real, p: Name): real {
    (if p in into then w else 0.0) - (if p in out then last else 0.0)
  }

  /** The change to every registered producer on either ballot. */
  ghost function Deltas(producers: Producers, out: seq<Name>, last: real, into: seq<Name>, w: real)
    : map<Name, real>
  {
    map p | p in producers && (p in out || p in into) :: Change(out, last, into, w, p)
  }

  function Clamped(x: real): real { if x < 0.0 then 0.0 else x }

  /** The ballots change: every producer on either list moves, clamped at zero. */
  ghost function Recast(b: Book, out: seq<Name>, last: real, into: seq<Name>, w: real): (b': Book)
    ensures SameRegister(b.producers, b'.producers) && b'.voters == b.voters
  {
    b.(producers := map p | p in b.producers ::
                      if p in out || p in into
                      then b.producers[p].(votes := Clamped(b.producers[p].votes + Change(out, last, into, w, p)))
                      else b.producers[p],
       weight := b.weight + RSum(Deltas(b.producers, out, last, into, w)))
  }

  /** Every producer of the new ballot is registered, and active when this is a fresh vote. */
  ghost predicate Electable(into: seq<Name>, producers: Producers, voting: bool) {
    forall p <- into :: p in producers && (voting ==> producers[p].active)
  }

  ghost function SetBallot(b: Book, v: Name, w: real, proxy: Name, producers: seq<Name>): Book
    requires v in b.voters
  {
    b.(voters := b.voters[v := b.voters[v].(last := w, producers := producers, proxy := proxy)])
  }

  /** The producers that lose `v`'s last weight: only a positive weight cast directly is undone. */
  function OldBallot(row: Voter): seq<Name> {
    if row.last > 0.0 && row.proxy == NO_NAME then row.producers else []
  }

  /** Phase one of update_votes: the last weight leaves the old proxy. */
  ghost function Leave(b: Book, row: Voter, scale: real): (r: Outcome<Book>)
    requires Sound(b)
    ensures r.Commit? ==> Sound(r.value) && SameBallots(b.voters, r.value.voters)
                          && SameRegister(b.producers, r.value.producers)
  {
    if row.last > 0.0 && row.proxy != NO_NAME then
      :- Assert(row.proxy in b.voters, NoOldProxy);
      var w := Shift(b, row.proxy, -row.last, scale);
      :- Assert(w.delivered, ProducerMissing);
      Commit(w.book)
    else
      Commit(b)
  }

  /** Phase two: the new weight joins the new proxy. */
  ghost function Join(b: Book, proxy: Name, w: real, voting: bool, scale: real): (r: Outcome<Book>)
    requires Sound(b)
    ensures r.Commit? ==> Sound(r.value) && SameBallots(b.voters, r.value.voters)
                          && SameRegister(b.producers, r.value.producers)
    ensures r.Commit? && proxy != NO_NAME ==> proxy in b.voters && (voting ==> b.voters[proxy].isProxy)
  {
    if proxy == NO_NAME then Commit(b) else
      :- Assert(proxy in b.voters, NoNewProxy);
      :- Assert(voting ==> b.voters[proxy].isProxy, NotAProxy);
      if w >= 0.0 then
        var a := Shift(b, proxy, w, scale);
        :- Assert(a.delivered, ProducerMissing);
        Commit(a.book)
      else
        Commit(b)
  }

  /** Phase three: the producers of the old and the new ballot move. */
  ghost function Elect(b: Book, row: Voter, producers: seq<Name>, w: real, voting: bool): (r: Outcome<Book>)
    ensures r.Commit? ==> r.value.voters == b.voters && SameRegister(b.producers, r.value.producers)
  {
    var into := if w >= 0.0 then producers else [];
    :- Assert(Electable(into, b.producers, voting), ProducerInactive);
    Commit(Recast(b, OldBallot(row), row.last, into, w))
  }

  predicate Ballot(v: Name, proxy: Name, producers: seq<Name>) {
    && (proxy != NO_NAME ==> producers == [] && v != proxy)
    && |producers| <= 30
    && Increasing(producers)
  }

  /** update_votes. `voting` is false when staking re-applies the stored ballot. */
  ghost function UpdateVotes(b: Book, v: Name, proxy: Name, producers: seq<Name>, voting: bool, scale: real)
    : Outcome<Book>
    requires Sound(b)
  {
    if !Ballot(v, proxy, producers) then Abort(BadBallot) else
    :- Assert(v in b.voters, NotStaked);
    var row := b.voters[v];
    :- Assert(proxy == NO_NAME || !row.isProxy, ProxyUsesProxy);
    var w := CurrentWeight(row, scale);
    var b1 :- Leave(b, row, scale);
    var b2 :- Join(b1, proxy, w, voting, scale);
    var b3 :- Elect(b2, row, producers, w, voting);
    Commit(SetBallot(b3, v, w, proxy, producers))
  }

  /** regproxy. */
  ghost function RegProxy(b: Book, v: Name, isProxy: bool, scale: real): Outcome<Book>
    requires Sound(b) && v != NO_NAME
  {
    if v in b.voters then
      :- Assert(isProxy != b.voters[v].isProxy, NoEffect);
      :- Assert(!isProxy || b.voters[v].proxy == NO_NAME, ProxyUsesProxy);
      FlagSound(b, v, isProxy);
      var a := Walk(Flag(b, v, isProxy), v, scale);
      :- Assert(a.delivered, ProducerMissing);
      Commit(a.book)
    else
      Commit(b.(voters := b.voters[v := NEW_VOTER.(isProxy := isProxy)]))
  }

  ghost function Flag(b: Book, v: Name, isProxy: bool): Book
    requires v in b.voters
  {
    b.(voters := b.voters[v := b.voters[v].(isProxy := isProxy)])
  }

  lemma {:induction false} FlagSound(b: Book, v: Name, isProxy: bool)
    requires Sound(b) && v in b.voters && (isProxy ==> b.voters[v].proxy == NO_NAME)
    ensures Sound(Flag(b, v, isProxy)) && Edges(Flag(b, v, isProxy).voters) == Edges(b.voters)
  {
    assert Edges(Flag(b, v, isProxy).voters) == Edges(b.voters);
    assert RowSound(b.voters[v]);
  }

  // ---------------------------------------------------------------- soundness is kept

  lemma {:induction false} SetBallotSound(b: Book, v: Name, w: real, proxy: Name, producers: seq<Name>)
    requires Sound(b) && v in b.voters
    requires |producers| <= 30 && Increasing(producers)
    requires proxy != NO_NAME ==>
      producers == [] && !b.voters[v].isProxy && proxy != v && proxy in b.voters
      && (b.voters[proxy].proxy == NO_NAME || b.voters[v].proxy == proxy)
    ensures Sound(SetBallot(b, v, w, proxy, producers))
  {
    var b' := SetBallot(b, v, w, proxy, producers);
    var g := Edges(b.voters);
    assert Edges(b'.voters) == g[v := proxy];
    if proxy == NO_NAME {
      AcyclicUnlink(g, v);
    } else if b.voters[v].proxy == proxy {
      assert g[v := proxy] == g;
    } else {
      AcyclicLink(g, v, proxy);
    }
  }

  /** update_votes keeps the proxy graph acyclic and the ballots well formed: a fresh vote may only
      choose a registered proxy, which has no proxy itself, and staking repeats the stored one. */
  lemma {:induction false} UpdateVotesSound(b: Book, v: Name, proxy: Name, producers: seq<Name>, voting: bool,
                                            scale: real)
    requires Sound(b)
    requires !voting ==> v in b.voters && proxy == b.voters[v].proxy
    ensures var r := UpdateVotes(b, v, proxy, producers, voting, scale);
      r.Commit? ==> Sound(r.value)
  {
    if UpdateVotes(b, v, proxy, producers, voting, scale).Commit? {
      var row := b.voters[v];
      var w := CurrentWeight(row, scale);
      var b1 := Leave(b, row, scale).value;
      var b2 := Join(b1, proxy, w, voting, scale).value;
      var b3 := Elect(b2, row, producers, w, voting).value;
      SameBallotsKeepsSound(b2, b3);
      if proxy != NO_NAME && voting { assert RowSound(b.voters[proxy]); }
      SetBallotSound(b3, v, w, proxy, producers);
    }
  }

  /** No vote moves a stake. */
  ghost predicate SameStakes(voters: Voters, voters': Voters) {
    voters'.Keys == voters.Keys && forall v <- voters :: voters'[v].staked == voters[v].staked
  }

  lemma {:induction false} UpdateVotesStakes(b: Book, v: Name, proxy: Name, producers: seq<Name>, voting: bool,
                                             scale: real)
    requires Sound(b)
    ensures var r := UpdateVotes(b, v, proxy, producers, voting, scale);
      r.Commit? ==> SameStakes(b.voters, r.value.voters) && SameRegister(b.producers, r.value.producers)
  {
    hide Leave, Join, Elect, Sound;
  }

  lemma {:induction false} RegProxySound(b: Book, v: Name, isProxy: bool, scale: real)
    requires Sound(b) && v != NO_NAME
    ensures var r := RegProxy(b, v, isProxy, scale); r.Commit? ==> Sound(r.value)
  {
    if v !in b.voters {
      var b' := b.(voters := b.voters[v := NEW_VOTER.(isProxy := isProxy)]);
      AcyclicUnlink(Edges(b.voters), v);
      assert Edges(b'.voters) == Edges(b.voters)[v := NO_NAME];
    }
  }
}
