/** The voters and producers tables as the contract updates them in place. A method whose `ok` is
    false has hit a failing `eosio_assert`; the chain then discards every write, so nothing is
    promised about the fields. Asserts that a sound book can never fail are Dafny asserts. */
module VoteBook {
  import opened Base
  import opened Votes

  class VoteBook {
    var voters: Voters
    var producers: Producers
    var weight: real

    ghost function State(): Book
      reads this
    {
      Book(voters, producers, weight)
    }

    constructor ()
      ensures State() == Book(map[], map[], 0.0)
    {
      voters, producers, weight := map[], map[], 0.0;
    }

    /** The loop of propagate_weight_change over a ballot. */
    method AddToBallot(ps: seq<Name>, d: real) returns (ok: bool)
      requires Increasing(ps)
      modifies this
      ensures ok == Registered(ps, old(producers))
      ensures ok ==> State() == AddVotes(old(State()), ps, d)
    {
      ghost var b := State();
      assert AddVotes(b, [], d).producers == b.producers;
      for i := 0 to |ps|
        invariant Registered(ps[..i], b.producers)
        invariant State() == AddVotes(b, ps[..i], d)
      {
        var p := ps[i];
        assert ps[..i + 1] == ps[..i] + [p];
        if p !in producers { return false; }
        producers := producers[p := producers[p].(votes := producers[p].votes + d)];
        weight := weight + d;
        assert producers == AddVotes(b, ps[..i + 1], d).producers;
      }
      assert ps[..|ps|] == ps;
      return true;
    }

    /** propagate_weight_change, with the weight of `v` stored after the walk as the source does. */
    method PropagateWeightChange(v: Name, scale: real) returns (ok: bool)
      requires Sound(State()) && v in voters
      modifies this
      ensures ok == Walk(old(State()), v, scale).delivered
      ensures ok ==> State() == Walk(old(State()), v, scale).book
      decreases Height(Edges(voters), v)
    {
      hide Walk, Sound, Height;
      ghost var b := State();
      var row := voters[v];
      SoundRow(b, v);
      assert row.proxy == NO_NAME || !row.isProxy;
      var w := CurrentWeight(row, scale);
      var d := w - row.last;
      if d > 1.0 || d < -1.0 {
        if row.proxy != NO_NAME {
          StoreLater(b, v, scale);
          voters := voters[row.proxy := voters[row.proxy].(proxied := voters[row.proxy].proxied + d)];
          ok := PropagateWeightChange(row.proxy, scale);
          if !ok { return; }
        } else {
          WalkStops(b, v, scale);
          ok := AddToBallot(row.producers, d);
          if !ok { return; }
        }
      } else {
        WalkStops(b, v, scale);
      }
      voters := voters[v := voters[v].(last := w)];
      return true;
    }

    /** The adjacent-pair test of update_votes decides whether a ballot is strictly increasing. */
    method IsIncreasing(ps: seq<Name>) returns (ok: bool)
      ensures ok == Increasing(ps)
    {
      if ps == [] { return true; }
      for i := 1 to |ps|
        invariant Increasing(ps[..i])
      {
        if !(ps[i - 1] < ps[i]) { return false; }
      }
      assert ps[..|ps|] == ps;
      return true;
    }

    /** The first loop over producer_deltas: the old ballot loses the last weight. */
    method SubtractBallot(out: seq<Name>, last: real) returns (deltas: map<Name, (real, bool)>)
      requires Increasing(out)
      ensures forall p :: p in deltas <==> p in out
      ensures forall p <- deltas :: deltas[p] == (-last, false)
    {
      deltas := map[];
      for i := 0 to |out|
        invariant forall p :: p in deltas <==> p in out[..i]
        invariant forall p <- deltas :: deltas[p] == (-last, false)
      {
        assert out[..i + 1] == out[..i] + [out[i]];
        assert out[i] !in deltas;
        deltas := deltas[out[i] := (-last, false)];
      }
      assert out[..|out|] == out;
    }

    /** The second loop: the new ballot gains the new weight. Each producer ends up with its change
        and with whether it is on the new ballot. */
    method CollectDeltas(out: seq<Name>, last: real, into: seq<Name>, w: real)
      returns (deltas: map<Name, (real, bool)>)
      requires Increasing(out) && Increasing(into)
      ensures forall p :: p in deltas <==> p in out || p in into
      ensures forall p <- deltas :: deltas[p] == (Change(out, last, into, w, p), p in into)
    {
      deltas := SubtractBallot(out, last);
      ghost var deltas0 := deltas;
      for i := 0 to |into|
        invariant forall p :: p in deltas <==> p in deltas0 || p in into[..i]
        invariant forall p <- deltas :: p in into[..i] ==>
                    deltas[p] == ((if p in deltas0 then deltas0[p].0 else 0.0) + w, true)
        invariant forall p <- deltas :: p !in into[..i] ==> deltas[p] == deltas0[p]
      {
        var q := into[i];
        assert into[..i + 1] == into[..i] + [q];
        assert q !in into[..i];
        var d := if q in deltas then deltas[q].0 else 0.0;
        deltas := deltas[q := (d + w, true)];
      }
      assert into[..|into|] == into;
    }

    /** One turn of the final loop of update_votes. */
    method ApplyDelta(p: Name, delta: (real, bool), voting: bool) returns (ok: bool)
      modifies this
      ensures ok == (delta.1 ==> p in old(producers) && (voting ==> old(producers)[p].active))
      ensures ok ==> voters == old(voters)
      ensures ok && p in old(producers) ==>
        && producers == old(producers)[p := Moved(old(producers)[p], delta.0)]
        && weight == old(weight) + delta.0
      ensures ok && p !in old(producers) ==> producers == old(producers) && weight == old(weight)
    {
      if p in producers {
        if voting && !producers[p].active && delta.1 { return false; }
        var votes := producers[p].votes + delta.0;
        if votes < 0.0 { votes := 0.0; }
        producers := producers[p := producers[p].(votes := votes)];
        weight := weight + delta.0;
      } else {
        if delta.1 { return false; }
      }
      return true;
    }

    /** The final loop of update_votes over producer_deltas. */
    method ApplyDeltas(deltas: map<Name, (real, bool)>, voting: bool,
                       ghost out: seq<Name>, ghost last: real, ghost into: seq<Name>, ghost w: real)
      returns (ok: bool)
      requires forall p :: p in deltas <==> p in out || p in into
      requires forall p <- deltas :: deltas[p] == (Change(out, last, into, w, p), p in into)
      modifies this
      ensures ok == Electable(into, old(producers), voting)
      ensures ok ==> State() == Recast(old(State()), out, last, into, w)
    {
      hide RSum, Change, Moved, Half, Recast;
      ghost var b := State();
      var todo := deltas.Keys;
      HalfNone(b, out, last, into, w);
      assert deltas.Keys - todo == {};
      while todo != {}
        invariant todo <= deltas.Keys
        invariant Half(b, State(), deltas.Keys - todo, out, last, into, w)
        invariant forall p <- deltas.Keys - todo :: p in into ==> p in b.producers && (voting ==> b.producers[p].active)
      {
        var p :| p in todo;
        ghost var b0 := State();
        ghost var done := deltas.Keys - todo;
        HalfRow(b, b0, done, out, last, into, w, p);
        ok := ApplyDelta(p, deltas[p], voting);
        if !ok { return; }
        HalfStep(b, b0, State(), done, out, last, into, w, p);
        assert deltas.Keys - (todo - {p}) == done + {p};
        todo := todo - {p};
      }
      assert deltas.Keys - todo == deltas.Keys;
      HalfAll(b, State(), deltas.Keys, out, last, into, w);
      return true;
    }

    /** update_votes. */
    method UpdateVotes(v: Name, proxy: Name, ps: seq<Name>, voting: bool, scale: real) returns (ok: bool)
      requires Sound(State())
      requires !voting ==> v in voters && proxy == voters[v].proxy && ps == voters[v].producers
      modifies this
      ensures ok == Votes.UpdateVotes(old(State()), v, proxy, ps, voting, scale).Commit?
      ensures ok ==> State() == Votes.UpdateVotes(old(State()), v, proxy, ps, voting, scale).value
    {
      hide Walk, OnChain, Recast, Acyclic, Edges;
      if proxy != NO_NAME {
        if ps != [] || v == proxy { return false; }
      } else {
        if |ps| > 30 { return false; }
        var sorted := IsIncreasing(ps);
        if !sorted { return false; }
      }
      if v !in voters { return false; }
      var row := voters[v];
      assert RowSound(row);
      if proxy != NO_NAME && row.isProxy { return false; }
      var w := CurrentWeight(row, scale);
      ghost var b := State();
      ok := LeaveProxy(v, row, scale);
      if !ok { return; }
      ghost var b1 := State();
      if proxy != NO_NAME {
        ok := JoinProxy(v, proxy, w, voting, scale);
        if !ok { return; }
      }
      assert State() == Join(b1, proxy, w, voting, scale).value;
      var into := if w >= 0.0 then ps else [];
      var deltas := CollectDeltas(OldBallot(row), row.last, into, w);
      ok := ApplyDeltas(deltas, voting, OldBallot(row), row.last, into, w);
      if !ok { return; }
      voters := voters[v := voters[v].(last := w, producers := ps, proxy := proxy)];
    }

    method LeaveProxy(v: Name, row: Voter, scale: real) returns (ok: bool)
      requires Sound(State()) && v in voters && row == voters[v]
      modifies this
      ensures ok == Leave(old(State()), row, scale).Commit?
      ensures ok ==> State() == Leave(old(State()), row, scale).value
    {
      hide Walk, Sound, OnChain, Edges, Height, SameBallots, SameRegister;
      if row.last > 0.0 && row.proxy != NO_NAME {
        ProxyExists(State(), v);
        assert row.proxy in voters;
        BumpSound(State(), row.proxy, -row.last);
        voters := voters[row.proxy := voters[row.proxy].(proxied := voters[row.proxy].proxied - row.last)];
        ok := PropagateWeightChange(row.proxy, scale);
      } else {
        ok := true;
      }
    }

    method JoinProxy(v: Name, proxy: Name, w: real, voting: bool, scale: real) returns (ok: bool)
      requires Sound(State()) && proxy != NO_NAME
      modifies this
      ensures ok == Join(old(State()), proxy, w, voting, scale).Commit?
      ensures ok ==> State() == Join(old(State()), proxy, w, voting, scale).value
    {
      if proxy !in voters { return false; }
      if voting && !voters[proxy].isProxy { return false; }
      ok := true;
      if w >= 0.0 {
        BumpSound(State(), proxy, w);
        voters := voters[proxy := voters[proxy].(proxied := voters[proxy].proxied + w)];
        ok := PropagateWeightChange(proxy, scale);
      }
    }

    /** regproxy. */
    method RegProxy(v: Name, isProxy: bool, scale: real) returns (ok: bool)
      requires Sound(State()) && v != NO_NAME
      modifies this
      ensures ok == Votes.RegProxy(old(State()), v, isProxy, scale).Commit?
      ensures ok ==> State() == Votes.RegProxy(old(State()), v, isProxy, scale).value
    {
      if v in voters {
        if isProxy == voters[v].isProxy { return false; }
        if isProxy && voters[v].proxy != NO_NAME { return false; }
        FlagSound(State(), v, isProxy);
        voters := voters[v := voters[v].(isProxy := isProxy)];
        ok := PropagateWeightChange(v, scale);
      } else {
        voters := voters[v := NEW_VOTER.(isProxy := isProxy)];
        return true;
      }
    }
  }

  /** A producer's entry after a change, clamped at zero. */
  function Moved(p: Producer, d: real): Producer { p.(votes := Clamped(p.votes + d)) }

  ghost function DoneDeltas(b: Book, done: set<Name>, out: seq<Name>, last: real, into: seq<Name>, w: real)
    : map<Name, real>
  {
    map p | p in b.producers && p in done :: Change(out, last, into, w, p)
  }

  /** Exactly the producers in `done` have moved, and the total weight with them. */
  ghost predicate Half(b: Book, b': Book, done: set<Name>, out: seq<Name>, last: real, into: seq<Name>, w: real) {
    && b'.voters == b.voters
    && b'.weight == b.weight + RSum(DoneDeltas(b, done, out, last, into, w))
    && b'.producers.Keys == b.producers.Keys
    && forall p <- b.producers ::
      b'.producers[p] == if p in done then Moved(b.producers[p], Change(out, last, into, w, p)) else b.producers[p]
  }

  lemma {:induction false} HalfNone(b: Book, out: seq<Name>, last: real, into: seq<Name>, w: real)
    ensures Half(b, b, {}, out, last, into, w)
  {
    RSumZero(DoneDeltas(b, {}, out, last, into, w));
  }

  lemma {:induction false} HalfRow(b: Book, b': Book, done: set<Name>, out: seq<Name>, last: real,
                                   into: seq<Name>, w: real, p: Name)
    requires Half(b, b', done, out, last, into, w) && p !in done
    ensures p in b'.producers <==> p in b.producers
    ensures p in b.producers ==> b'.producers[p] == b.producers[p]
  {
  }

  lemma {:induction false} HalfStep(b: Book, b0: Book, b1: Book, done: set<Name>, out: seq<Name>, last: real,
                                    into: seq<Name>, w: real, p: Name)
    requires Half(b, b0, done, out, last, into, w) && p !in done && b1.voters == b0.voters
    requires p in b0.producers ==>
      && b1.producers == b0.producers[p := Moved(b0.producers[p], Change(out, last, into, w, p))]
      && b1.weight == b0.weight + Change(out, last, into, w, p)
    requires p !in b0.producers ==> b1 == b0
    ensures Half(b, b1, done + {p}, out, last, into, w)
  {
    hide RSum, Change, Moved;
    RSumChange(DoneDeltas(b, done, out, last, into, w), DoneDeltas(b, done + {p}, out, last, into, w), p);
  }

  lemma {:induction false} HalfAll(b: Book, b': Book, done: set<Name>, out: seq<Name>, last: real,
                                   into: seq<Name>, w: real)
    requires Half(b, b', done, out, last, into, w)
    requires forall p :: p in done <==> p in out || p in into
    ensures b' == Recast(b, out, last, into, w)
  {
    hide RSum, Change;
    assert DoneDeltas(b, done, out, last, into, w) == Deltas(b.producers, out, last, into, w);
    assert b'.producers == Recast(b, out, last, into, w).producers;
  }

  lemma {:induction false} SoundRow(b: Book, v: Name)
    requires Sound(b) && v in b.voters
    ensures RowSound(b.voters[v])
  {
  }

  lemma {:induction false} WalkStops(b: Book, v: Name, scale: real)
    requires Sound(b) && v in b.voters && (Small(Drift(b, v, scale)) || b.voters[v].proxy == NO_NAME)
    ensures var a, row := Walk(b, v, scale), b.voters[v];
      && a.book == Stop(b, v, scale)
      && a.delivered == (Small(Drift(b, v, scale)) || Registered(row.producers, b.producers))
  {
  }

  /** Crediting the proxy first and storing `v`'s weight last comes to the same walk. */
  lemma {:induction false} StoreLater(b: Book, v: Name, scale: real)
    requires Sound(b) && v in b.voters && b.voters[v].proxy != NO_NAME && !Small(Drift(b, v, scale))
    ensures b.voters[v].proxy in b.voters && b.voters[v].proxy != v
    ensures Height(Edges(b.voters), b.voters[v].proxy) < Height(Edges(b.voters), v)
    ensures var b1 := Bump(b, b.voters[v].proxy, Drift(b, v, scale));
      && Sound(b1) && Edges(b1.voters) == Edges(b.voters)
      && var a := Walk(b1, b.voters[v].proxy, scale);
         Walk(b, v, scale) == a.(book := SetLast(a.book, v, CurrentWeight(b.voters[v], scale)))
  {
    PassOnSound(b, v, scale);
    ProxyExists(b, v);
    var n, w := b.voters[v].proxy, CurrentWeight(b.voters[v], scale);
    var b1 := Bump(b, n, Drift(b, v, scale));
    SameBallotsKeepsSound(b, b1);
    UpdatesSwap(b.voters, v, b.voters[v].(last := w), n, b1.voters[n]);
    assert PassOn(b, v, scale) == SetLast(b1, v, w);
    SetLastCommutes(b1, n, scale, v, w);
  }
}
