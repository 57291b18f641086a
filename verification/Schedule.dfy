/** The producer schedule of update_elected_producers. */
module Schedule {
  import opened Base
  import opened Votes

  /** by_votes: the key of the prototalvote index. */
  function ByVotes(p: Producer): real { if p.active then -p.votes else p.votes }

  /** Rows with equal keys are ordered by name. */
  predicate Before(producers: Producers, p: Name, q: Name)
    requires p in producers && q in producers
  {
    ByVotes(producers[p]) < ByVotes(producers[q]) || (ByVotes(producers[p]) == ByVotes(producers[q]) && p < q)
  }

  /** `idx` lists the producers table in the order of the index. */
  ghost predicate IsIndex(idx: seq<Name>, producers: Producers) {
    && (forall p :: p in idx <==> p in producers)
    && (forall i, j | 0 <= i < j < |idx| :: Before(producers, idx[i], idx[j]))
  }

  /** The active producers among `s`, in order. */
  function Actives(s: seq<Name>, producers: Producers): seq<Name>
    requires forall p <- s :: p in producers
  {
    if s == [] then [] else
      var rest := Actives(s[..|s| - 1], producers);
      var p := s[|s| - 1];
      if producers[p].active then rest + [p] else rest
  }

  lemma {:induction false} ActivesMembers(s: seq<Name>, producers: Producers, p: Name)
    requires forall q <- s :: q in producers
    ensures p in Actives(s, producers) <==> p in s && producers[p].active
    decreases |s|
  {
    if s != [] {
      var rest := s[..|s| - 1];
      assert s == rest + [s[|s| - 1]];
      ActivesMembers(rest, producers, p);
    }
  }

  /** Among active producers the index order is by falling votes, then by name. */
  predicate Ahead(producers: Producers, p: Name, q: Name)
    requires p in producers && q in producers
  {
    producers[p].votes > producers[q].votes || (producers[p].votes == producers[q].votes && p < q)
  }

  lemma {:induction false} ActivesOrdered(s: seq<Name>, producers: Producers)
    requires forall p <- s :: p in producers
    requires forall i, j | 0 <= i < j < |s| :: Before(producers, s[i], s[j])
    ensures forall p <- Actives(s, producers) :: p in producers
    ensures forall i, j | 0 <= i < j < |Actives(s, producers)| :: Ahead(producers, Actives(s, producers)[i], Actives(s, producers)[j])
    decreases |s|
  {
    forall p | p in Actives(s, producers) ensures p in producers { ActivesMembers(s, producers, p); }
    if s != [] {
      var rest, last := s[..|s| - 1], s[|s| - 1];
      ActivesOrdered(rest, producers);
      var a, b := Actives(s, producers), Actives(rest, producers);
      if producers[last].active {
        forall i | 0 <= i < |b| ensures Ahead(producers, b[i], last) {
          ActivesMembers(rest, producers, b[i]);
          var k :| 0 <= k < |rest| && rest[k] == b[i];
          assert Before(producers, s[k], s[|s| - 1]);
        }
      }
    }
  }

  // ---------------------------------------------------------------- sorting by name

  lemma {:induction false} ConsIncreasing(x: Name, s: seq<Name>)
    requires Increasing(s) && forall y <- s :: x < y
    ensures Increasing([x] + s)
  {
    var r := [x] + s;
    forall i, j | 0 <= i < j < |r| ensures r[i] < r[j] {
      assert r[j] == s[j - 1] && s[j - 1] in s;
      if i > 0 { assert r[i] == s[i - 1]; }
    }
  }

  function Insert(x: Name, s: seq<Name>): (r: seq<Name>)
    requires Increasing(s) && x !in s
    ensures Increasing(r) && forall y :: y in r <==> y == x || y in s
    ensures |r| == |s| + 1
  {
    if s == [] then [x]
    else if x < s[0] then (ConsIncreasing(x, s); [x] + s)
    else
      assert s[0] in s;
      assert forall y :: y in s <==> y == s[0] || y in s[1..];
      var r := Insert(x, s[1..]);
      ConsIncreasing(s[0], r);
      [s[0]] + r
  }

  /** std::sort on pairs that start with distinct names. */
  function SortByName(s: seq<Name>): (r: seq<Name>)
    requires forall i, j | 0 <= i < j < |s| :: s[i] != s[j]
    ensures Increasing(r) && (forall y :: y in r <==> y in s) && |r| == |s|
  {
    if s == [] then [] else
      assert s[0] !in s[1..];
      assert forall y :: y in s <==> y == s[0] || y in s[1..];
      Insert(s[0], SortByName(s[1..]))
  }

  // ---------------------------------------------------------------- the schedule

  /** What a schedule of `num` producers must be. */
  ghost predicate Elected(names: seq<Name>, producers: Producers, num: int) {
    && Increasing(names)
    && (forall p <- names :: p in producers && producers[p].active)
    && (forall p, q | p in names && q in producers && producers[q].active && q !in names :: Ahead(producers, p, q))
    && |names| == Max(0, if num < |ActiveSet(producers)| then num else |ActiveSet(producers)|)
  }

  ghost function ActiveSet(producers: Producers): set<Name> { set p | p in producers && producers[p].active }

  lemma {:induction false} DistinctCount(s: seq<Name>, t: set<Name>)
    requires forall i, j | 0 <= i < j < |s| :: s[i] != s[j]
    requires forall x :: x in s <==> x in t
    ensures |s| == |t|
    decreases |s|
  {
    if s == [] {
      assert t == {};
    } else {
      var last := s[|s| - 1];
      assert last in t;
      var rest := s[..|s| - 1];
      forall x ensures x in rest <==> x in t - {last} {
        if x in t - {last} { assert x in s; }
        if x in rest { assert x in s; }
      }
      DistinctCount(rest, t - {last});
    }
  }

  /** update_elected_producers: the loop over the vote index, the sort by name and the list of names and
      keys that is proposed. */
  method UpdateElectedProducers(idx: seq<Name>, producers: Producers, num: int) returns (schedule: seq<(Name, nat)>)
    requires IsIndex(idx, producers)
    ensures Elected(seq(|schedule|, i requires 0 <= i < |schedule| => schedule[i].0), producers, num)
    ensures forall i | 0 <= i < |schedule| :: schedule[i].0 in producers && schedule[i].1 == producers[schedule[i].0].key
  {
    var top: seq<Name> := [];
    var i := 0;
    while i < |idx| && |top| < num
      invariant 0 <= i <= |idx| && top == Actives(idx[..i], producers)
      invariant |top| <= Max(0, num)
    {
      assert idx[i] in producers;
      assert idx[..i + 1][..i] == idx[..i];
      if producers[idx[i]].active { top := top + [idx[i]]; }
      i := i + 1;
    }
    TopIsElected(idx, producers, num, i);
    var sorted := SortByName(top);
    schedule := [];
    for k := 0 to |sorted|
      invariant |schedule| == k
      invariant forall j | 0 <= j < k :: sorted[j] in producers && schedule[j] == (sorted[j], producers[sorted[j]].key)
    {
      assert sorted[k] in sorted;
      schedule := schedule + [(sorted[k], producers[sorted[k]].key)];
    }
    assert seq(|schedule|, i requires 0 <= i < |schedule| => schedule[i].0) == sorted;
  }

  /** The active producers among the rows visited, in any order, are the elected ones. */
  lemma {:induction false} TopIsElected(idx: seq<Name>, producers: Producers, num: int, i: nat)
    requires IsIndex(idx, producers) && i <= |idx|
    requires |Actives(idx[..i], producers)| <= Max(0, num)
    requires i == |idx| || |Actives(idx[..i], producers)| >= num
    ensures var top := Actives(idx[..i], producers);
      && (forall a, b | 0 <= a < b < |top| :: top[a] != top[b])
      && (forall p <- top :: p in producers && producers[p].active)
      && (forall p, q | p in top && q in producers && producers[q].active && q !in top :: Ahead(producers, p, q))
      && |top| == Max(0, if num < |ActiveSet(producers)| then num else |ActiveSet(producers)|)
  {
    var seen := idx[..i];
    var top := Actives(seen, producers);
    ActivesOrdered(seen, producers);
    forall p | p in top ensures p in producers && producers[p].active && p in seen { ActivesMembers(seen, producers, p); }
    forall p, q | p in top && q in producers && producers[q].active && q !in top ensures Ahead(producers, p, q) {
      ActivesMembers(seen, producers, q);
      LaterIsBehind(idx, producers, i, p, q);
    }
    CountTop(idx, producers, i);
  }

  lemma {:induction false} LaterIsBehind(idx: seq<Name>, producers: Producers, i: nat, p: Name, q: Name)
    requires IsIndex(idx, producers) && i <= |idx|
    requires p in idx[..i] && q in producers && q !in idx[..i]
    requires producers[p].active && producers[q].active
    ensures Ahead(producers, p, q)
  {
    var a :| 0 <= a < i && idx[a] == p;
    var b :| 0 <= b < |idx| && idx[b] == q;
    assert forall k | 0 <= k < i :: idx[k] in idx[..i];
    assert Before(producers, idx[a], idx[b]);
  }

  lemma {:induction false} CountTop(idx: seq<Name>, producers: Producers, i: nat)
    requires IsIndex(idx, producers) && i <= |idx|
    ensures |Actives(idx[..i], producers)| <= |ActiveSet(producers)|
    ensures i == |idx| ==> |Actives(idx[..i], producers)| == |ActiveSet(producers)|
  {
    var top := Actives(idx[..i], producers);
    var s := set p | p in top;
    ActivesOrdered(idx[..i], producers);
    DistinctCount(top, s);
    forall p | p in s ensures p in ActiveSet(producers) { ActivesMembers(idx[..i], producers, p); }
    SubsetCount(s, ActiveSet(producers));
    if i == |idx| {
      assert idx[..i] == idx;
      forall p | p in ActiveSet(producers) ensures p in s { ActivesMembers(idx, producers, p); }
      assert s == ActiveSet(producers);
    }
  }

  lemma {:induction false} SubsetCount(a: set<Name>, b: set<Name>)
    requires a <= b
    ensures |a| <= |b|
  {
    assert b == a + (b - a);
  }

  // ---------------------------------------------------------------- the index exists

  lemma {:induction false} LastExists(producers: Producers) returns (last: Name)
    requires producers != map[]
    ensures last in producers && forall p <- producers :: p != last ==> Before(producers, p, last)
    decreases |producers|
  {
    last :| last in producers;
    var rest := producers - {last};
    if rest == map[] {
      assert producers.Keys - {last} == rest.Keys == {};
      assert forall p <- producers :: p !in producers.Keys - {last};
    } else {
      var m := LastExists(rest);
      forall p | p in producers && p != last && p != m ensures Before(producers, p, m) {
        assert p in rest && Before(rest, p, m);
      }
      if !Before(producers, m, last) { last := m; }
    }
  }

  /** Every producers table has an index, so the schedule is always defined. */
  lemma {:induction false} IndexExists(producers: Producers)
    ensures exists idx: seq<Name> :: IsIndex(idx, producers)
    decreases |producers|
  {
    if producers == map[] {
      assert IsIndex([], producers);
    } else {
      var last := LastExists(producers);
      var rest := producers - {last};
      assert producers == rest[last := producers[last]];
      IndexExists(rest);
      var idx: seq<Name> :| IsIndex(idx, rest);
      var all := idx + [last];
      forall i, j | 0 <= i < j < |all| ensures all[i] in producers && all[j] in producers && Before(producers, all[i], all[j]) {
        assert idx[i] in rest;
        if j < |idx| { assert idx[j] in rest && Before(rest, idx[i], idx[j]); }
      }
      assert IsIndex(all, producers);
    }
  }
}
