/** What the auctions keep. */
module AuctionLaws {
  import opened Base
  import Token
  import opened Staking
  import opened StakingLaws
  import opened Auctions
  import X = Exchange

  /** Bids are never zero and fit in 63 bits, and at most one auction is closed and unclaimed. */
  ghost predicate AuctionSound(bids: Bids) {
    && (forall n <- bids :: bids[n].high != 0 && -Token.MAX_AMOUNT <= bids[n].high <= Token.MAX_AMOUNT)
    && (forall n <- bids :: bids[n].bidder != NAMES)
    && (forall n, m | n in bids && m in bids :: bids[n].high < 0 && bids[m].high < 0 ==> n == m)
  }

  ghost function BidColumn(bids: Bids): map<Name, int> { map n | n in bids :: Abs(bids[n].high) }

  /** What the auction account holds beyond all recorded bids, open or closed. */
  ghost function NamesSlack(t: Token.State, bids: Bids): int { Funds(t, NAMES) - Sum(BidColumn(bids)) }

  // ---------------------------------------------------------------- the unsigned index

  /** In the unsigned order closed auctions come before open ones, and higher open bids first. */
  lemma {:induction false} KeyOrder(a: Bid, b: Bid)
    requires a.high != 0 && b.high != 0
    requires -Token.MAX_AMOUNT <= a.high <= Token.MAX_AMOUNT && -Token.MAX_AMOUNT <= b.high <= Token.MAX_AMOUNT
    ensures a.high < 0 < b.high ==> Key(a) < Key(b)
    ensures 0 < a.high && 0 < b.high ==> (Key(a) < Key(b) <==> b.high < a.high)
  {
    KeyOf(a);
    KeyOf(b);
  }

  lemma {:induction false} KeyOf(b: Bid)
    requires -Token.MAX_AMOUNT <= b.high <= Token.MAX_AMOUNT && b.high != 0
    ensures Key(b) == if b.high < 0 then -b.high else TWO64 - b.high
  {
  }

  /** Only the highest open bid can be closed, and only when no closed auction is unclaimed. */
  lemma {:induction false} ClosesOnlyHighest(bids: Bids, first: Name, micros: nat, threshold: nat)
    requires AuctionSound(bids) && (bids != map[] ==> IsFirst(bids, first))
    requires CloseFirst(bids, first, micros, threshold).1
    ensures first in bids && forall n <- bids :: 0 < bids[n].high <= bids[first].high
  {
    forall n | n in bids ensures 0 < bids[n].high <= bids[first].high {
      KeyOrder(bids[n], bids[first]);
      KeyOrder(bids[first], bids[n]);
    }
  }

  lemma {:induction false} CloseSound(t: Token.State, bids: Bids, first: Name, micros: nat, threshold: nat)
    requires AuctionSound(bids) && (bids != map[] ==> IsFirst(bids, first))
    ensures var bids' := CloseFirst(bids, first, micros, threshold).0;
      AuctionSound(bids') && NamesSlack(t, bids') == NamesSlack(t, bids)
  {
    hide Sum, Key, Minus64;
    var (bids', closed) := CloseFirst(bids, first, micros, threshold);
    if closed { ClosesOnlyHighest(bids, first, micros, threshold); }
    assert BidColumn(bids') == BidColumn(bids);
  }

  /** The index always has a first row. */
  lemma {:induction false} FirstExists(bids: Bids)
    requires bids != map[]
    ensures exists n: Name :: IsFirst(bids, n)
    decreases |bids|
  {
    hide Key;
    var k :| k in bids;
    var rest := bids - {k};
    if rest == map[] {
      assert bids.Keys == rest.Keys + {k};
      assert bids.Keys == {k};
      assert IsFirst(bids, k);
    } else {
      FirstExists(rest);
      var n: Name :| IsFirst(rest, n);
      if Key(bids[n]) < Key(bids[k]) || (Key(bids[n]) == Key(bids[k]) && n <= k) {
        forall m | m in bids ensures Key(bids[n]) < Key(bids[m]) || (Key(bids[n]) == Key(bids[m]) && n <= m) {
          if m != k { assert m in rest; }
        }
        assert IsFirst(bids, n);
      } else {
        forall m | m in bids ensures Key(bids[k]) < Key(bids[m]) || (Key(bids[k]) == Key(bids[m]) && k <= m) {
          if m != k { assert m in rest; }
        }
        assert IsFirst(bids, k);
      }
    }
  }

  // ---------------------------------------------------------------- bids

  lemma {:induction false} PlaceBidSound(t: Token.State, bids: Bids, e: Env, bidder: Name, name: Name, amount: int)
    requires Token.Sound(t) && AuctionSound(bids)
    ensures var r := PlaceBid(t, bids, e, bidder, name, amount);
      r.Commit? ==>
        && Token.Sound(r.value.0) && r.value.0.stats == t.stats && bidder != NAMES
        && AuctionSound(r.value.1)
        && NamesSlack(r.value.0, r.value.1) == NamesSlack(t, bids)
        && (forall o: Name {:trigger Funds(r.value.0, o)} :: o != bidder && o != NAMES ==> Funds(r.value.0, o) >= Funds(t, o))
        && (name in bids ==> 10 * amount > 11 * bids[name].high)
  {
    hide Pay, Token.Sound, Sum, Biddable;
    var r := PlaceBid(t, bids, e, bidder, name, amount);
    if r.Commit? {
      PayEffect(t, e, bidder, NAMES, amount);
      FundsInRange(t, bidder);
      var t1 := Pay(t, e, bidder, NAMES, amount).value;
      if name in bids {
        PayEffect(t1, e, NAMES, bids[name].bidder, bids[name].high);
        RaisesIff(bids[name].high, amount);
      }
      SumChange(BidColumn(bids), BidColumn(r.value.1), name);
    }
  }

  lemma {:induction false} FundsInRange(t: Token.State, o: Name)
    requires Token.Sound(t)
    ensures 0 <= Funds(t, o) <= Token.MAX_AMOUNT
  {
    var k := (o, Token.CORE.code);
    if k in t.accounts { Token.BalanceWithinSupply(t, k); }
  }

  /** As long as the auction account covers the bids, a bid is accepted exactly when the name can be bid
      on, the bidder can pay, and a standing bid is open, beaten by enough and another account's: the
      refund of the beaten bid cannot fail. */
  lemma {:induction false} PlaceBidIff(t: Token.State, bids: Bids, e: Env, bidder: Name, name: Name, amount: int)
    requires Token.Sound(t) && CoreLive(t) && AuctionSound(bids) && NamesSlack(t, bids) >= 0
    ensures PlaceBid(t, bids, e, bidder, name, amount).Commit? <==>
      && Biddable(name, e.accounts) && bidder != NAMES && NAMES in e.accounts && 0 < amount <= Funds(t, bidder)
      && (name in bids ==>
            && bids[name].high > 0 && 10 * amount > 11 * bids[name].high && bids[name].bidder != bidder
            && bids[name].bidder in e.accounts)
  {
    hide Pay, Token.Sound, Sum, Biddable, Raises, Funds;
    if name in bids { RaisesIff(bids[name].high, amount); }
    PayEffect(t, e, bidder, NAMES, amount);
    if name in bids {
      SumAtLeast(BidColumn(bids), name);
      var paid := Pay(t, e, bidder, NAMES, amount);
      if paid.Commit? { PayEffect(paid.value, e, NAMES, bids[name].bidder, bids[name].high); }
    }
  }

  /** The rebid rule, which rounds a tenth down: the new bid is more than eleven tenths of the old one. */
  lemma {:induction false} RaisesIff(high: int, bid: int)
    ensures high >= 0 ==> (Raises(high, bid) <==> 10 * bid > 11 * high)
  {
  }

  /** A bid that is accepted is recorded under its bidder with its amount and time, and beats the old one by more than
      a tenth; no other row changes. */
  lemma {:induction false} BidRecorded(t: Token.State, bids: Bids, e: Env, bidder: Name, name: Name, amount: int)
    ensures var r := PlaceBid(t, bids, e, bidder, name, amount);
      r.Commit? ==>
        && name !in e.accounts && amount > 0 && r.value.1.Keys == bids.Keys + {name}
        && r.value.1[name].bidder == bidder && r.value.1[name].high == amount && r.value.1[name].time == e.micros
        && (forall n <- bids :: n != name ==> r.value.1[n] == bids[n])
        && (name in bids ==> 0 < 11 * bids[name].high < 10 * amount && bids[name].bidder != bidder)
  {
    hide Pay, Suffix, Raises;
    if name in bids { RaisesIff(bids[name].high, amount); }
  }

  lemma {:induction false} CompoundStep(tens: nat, elevens: nat, first: nat, high: nat, bid: nat)
    requires tens > 0 && tens * high >= elevens * first && 10 * bid > 11 * high
    ensures 10 * tens * bid > 11 * elevens * first
  {
    X.MulMonotone(tens, tens, 11 * high + 1, 10 * bid);
    assert tens * (11 * high + 1) == 11 * (tens * high) + tens;
    assert tens * (10 * bid) == 10 * tens * bid;
    assert 11 * elevens * first == 11 * (elevens * first);
  }

  // ---------------------------------------------------------------- claims

  lemma {:induction false} NewAccountSound(t: Token.State, l: Ledger, bids: Bids, accounts: set<Name>, creator: Name,
                                           name: Name)
    requires AuctionSound(bids)
    ensures var r := NewAccount(l, bids, accounts, creator, name);
      r.Commit? ==> AuctionSound(r.value.1) && NamesSlack(t, r.value.1) >= NamesSlack(t, bids)
  {
    hide Sum, HasDot, Suffix;
    var r := NewAccount(l, bids, accounts, creator, name);
    if r.Commit? { SumChange(BidColumn(bids), BidColumn(r.value.1), name); }
  }

  /** newaccount commits exactly for a new name that the creator may create: any if it is the system account, any of
      twelve characters without a dot, the name of a closed auction it has won, or one that has its own name as
      suffix. The account starts with an empty resource row, and a won auction is used up. */
  lemma {:induction false} NewAccountIff(l: Ledger, bids: Bids, accounts: set<Name>, creator: Name, name: Name)
    ensures var r := NewAccount(l, bids, accounts, creator, name);
      var auctioned := creator != SYSTEM && HasDot(name) && Suffix(name) == name;
      && (r.Commit? <==>
            && name !in accounts && name !in l.userres
            && (auctioned ==> name in bids && bids[name].bidder == creator && bids[name].high < 0)
            && (creator != SYSTEM && HasDot(name) && Suffix(name) != name ==> Suffix(name) == creator))
      && (r.Commit? ==>
            && r.value.1 == (if auctioned then bids - {name} else bids)
            && r.value.0 == l.(userres := r.value.0.userres)
            && r.value.0.userres.Keys == l.userres.Keys + {name} && r.value.0.userres[name] == Resources(0, 0, 0)
            && forall o <- l.userres :: r.value.0.userres[o] == l.userres[o])
  {
    hide HasDot, Suffix;
  }
}
