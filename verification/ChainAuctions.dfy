/** Name auctions over whole runs. */
module ChainAuctions {
  import opened Base
  import Polls
  import Token
  import V = Votes
  import S = Staking
  import R = RamMarket
  import G = Governance
  import A = Auctions
  import opened AuctionLaws
  import B = Blocks
  import X = Exchange
  import opened Chain
  import opened ChainLaws
  import opened ChainRuns
  import J = ChainJournal

  predicate BidsOn(a: Action, name: Name) { a.BidName? && a.name == name }

  /** What a committed bid on `name` does to it. */
  lemma {:induction false} BidEffect(s: State, scale: real, auths: set<Name>, a: Action, name: Name)
    requires Ready(s) && Legal(s, a) && BidsOn(a, name)
    ensures var r := Apply(s, scale, auths, a);
      r.Commit? ==>
        && name !in s.accounts && r.value.accounts == s.accounts && name in r.value.bids
        && r.value.bids[name] == A.Bid(a.bidder, a.amount, s.micros) && a.amount > 0
        && (name in s.bids ==> 0 < 11 * s.bids[name].high < 10 * a.amount)
  {
    hide Ready, A.PlaceBid;
    BidRecorded(s.core.token, s.bids, s.Env(scale), a.bidder, name, a.amount);
  }

  /** What becomes of a bid in between: a block may change its sign, and only the claim of the name, which
      then is an account, removes it. */
  ghost predicate Stands(s: State, s': State, name: Name) {
    && s.accounts <= s'.accounts
    && (name in s'.bids ==>
          && name in s.bids && Abs(s'.bids[name].high) == Abs(s.bids[name].high)
          && s'.bids[name].bidder == s.bids[name].bidder && s'.bids[name].time == s.bids[name].time)
    && (name in s.bids && name !in s'.bids ==> name in s'.accounts)
  }

  lemma {:induction false} OtherBidStands(t: Token.State, bids: A.Bids, e: S.Env, bidder: Name, other: Name,
                                          amount: int, name: Name)
    requires other != name
    ensures var r := A.PlaceBid(t, bids, e, bidder, other, amount);
      r.Commit? ==> (name in r.value.1 <==> name in bids) && (name in bids ==> r.value.1[name] == bids[name])
  {
    hide S.Pay, A.Biddable;
  }

  lemma {:induction false} BlockStands(t: B.Tables, stake: int, num: int, threshold: nat, micros: nat, slot: int,
                                       producer: Name,
                                       first: Name, name: Name)
    requires t.bids != map[] ==> A.IsFirst(t.bids, first)
    ensures var bids := B.OnBlock(t, stake, num, threshold, micros, slot, producer, first).bids;
      && (name in bids <==> name in t.bids)
      && (name in bids ==> bids[name] == t.bids[name] || bids[name] == t.bids[name].(high := -t.bids[name].high))
  {
    hide A.CanClose, G.CountBlock;
  }

  lemma {:induction false} ClaimStands(l: S.Ledger, bids: A.Bids, accounts: set<Name>, creator: Name, other: Name,
                                       name: Name)
    ensures var r := A.NewAccount(l, bids, accounts, creator, other);
      r.Commit? ==>
        && (name in r.value.1 ==> name in bids && r.value.1[name] == bids[name])
        && (name in bids && name !in r.value.1 ==> other == name)
  {
    hide A.HasDot, A.Suffix;
  }

  /** Every action but a bid on the name itself lets its bid stand. */
  lemma {:induction false} BidStands(s: State, scale: real, auths: set<Name>, a: Action, name: Name)
    requires Ready(s) && Legal(s, a) && !BidsOn(a, name)
    ensures var r := Apply(s, scale, auths, a); r.Commit? ==> Stands(s, r.value, name)
  {
    hide Ready, S.Delegate, S.Undelegate, S.VoteProducer, S.Refund, V.RegProxy, Polls.VoteProposal;
    hide R.BuyRam, R.BuyRamBytes, R.SellRam, R.SetRam, Token.Apply, G.IsAvailable, A.IsFirst, B.OnBlock, A.PlaceBid;
    hide A.NewAccount;
    hide G.StakeToGnode, G.UnstakeGnode, G.UpdateGnode, G.NewProposal, G.ExecProposal, G.RmvProducer, G.ClaimRewards;
    match a {
      case BidName(bidder, other, amount) => OtherBidStands(s.core.token, s.bids, s.Env(scale), bidder, other, amount, name);
      case OnBlock(slot, producer, first) =>
        BlockStands(s.Blocks(), s.core.polls.stake, s.producerNum, s.core.threshold, s.micros, slot, producer, first, name);
      case NewAccount(creator, other) => ClaimStands(s.core.ledger, s.bids, s.accounts, creator, other, name);
      case _ =>
    }
  }

  /** The event is an accepted bid on `name`. */
  ghost predicate Bids(s: State, ev: Event, name: Name) { BidsOn(ev.action, name) && Commits(s, ev) }

  /** The accepted bids on `name` among the events from `i` to `j`. */
  ghost function Rebids(states: seq<State>, events: seq<Event>, name: Name, i: nat, j: nat): nat
    requires i <= j <= |events| && j <= |states|
    decreases j - i
  {
    if i == j then 0 else Rebids(states, events, name, i, j - 1) + if Bids(states[j - 1], events[j - 1], name) then 1 else 0
  }

  /** `k` rebids after a first offer, in whole numbers. */
  ghost predicate Compounded(high: int, first: int, k: nat) {
    X.Pow(10, k) * Abs(high) >= X.Pow(11, k) * first && (k > 0 ==> X.Pow(10, k) * Abs(high) > X.Pow(11, k) * first)
  }

  lemma {:induction false} CompoundsOnce(high: int, first: nat, k: nat, bid: int)
    requires high > 0 && Compounded(high, first, k) && 10 * bid > 11 * high
    ensures Compounded(bid, first, k + 1)
  {
    X.PowPositive(10, k);
    CompoundStep(X.Pow(10, k), X.Pow(11, k), first, high, bid);
    assert X.Pow(10, k + 1) == 10 * X.Pow(10, k) && X.Pow(11, k + 1) == 11 * X.Pow(11, k);
  }

  /** One event: an accepted bid on the name raises it, any other lets it stand. */
  lemma {:induction false} NextBid(s: State, ev: Event, s': State, name: Name, opening: nat)
    requires Inv(s, opening) && Next(s, ev, s')
    ensures Bids(s, ev, name) ==>
      && name !in s.accounts && name in s'.bids && s'.bids[name].high > 0
      && s'.bids[name] == A.Bid(ev.action.bidder, ev.action.amount, ev.micros)
      && (name in s.bids ==> 0 < 11 * s.bids[name].high < 10 * s'.bids[name].high)
    ensures !Bids(s, ev, name) ==> Stands(s, s', name)
  {
    hide Inv, Legal, Ready, Apply;
    TimePasses(s, ev.micros, opening);
    if BidsOn(ev.action, name) {
      BidEffect(At(s, ev.micros), ev.scale, ev.auths, ev.action, name);
    } else {
      BidStands(At(s, ev.micros), ev.scale, ev.auths, ev.action, name);
    }
  }

  /** In every run: from the first bid on a name, as long as the name has not been claimed, the k bids
      accepted since then have raised it by more than the k-th power of eleven tenths; and once it has been
      claimed it is an account, so that it never comes up again. */
  lemma {:induction false} RebidsCompound(states: seq<State>, events: seq<Event>, opening: nat, name: Name, i: nat,
                                          j: nat)
    requires IsRun(states, events) && Inv(states[0], opening) && i < j < |states|
    requires Bids(states[i], events[i], name) && name !in states[i].bids
    ensures name in states[i + 1].bids
    ensures name in states[j].bids ==>
      Compounded(states[j].bids[name].high, states[i + 1].bids[name].high, Rebids(states, events, name, i + 1, j))
    ensures name !in states[j].bids ==> name in states[j].accounts
    decreases j - i
  {
    hide Inv, Next, Bids, Compounded;
    RunSound(states, events, opening, j - 1);
    assert Next(states[j - 1], events[j - 1], states[j]);
    NextBid(states[j - 1], events[j - 1], states[j], name, opening);
    if j == i + 1 {
      NoRebids(states[j].bids[name].high);
    } else {
      RebidsCompound(states, events, opening, name, i, j - 1);
      FirstOffer(states, events, opening, name, i);
      if Bids(states[j - 1], events[j - 1], name) {
        var k := Rebids(states, events, name, i + 1, j - 1);
        CompoundsOnce(states[j - 1].bids[name].high, states[i + 1].bids[name].high, k, states[j].bids[name].high);
      } else if name in states[j].bids {
        SameCompound(states[j - 1].bids[name].high, states[j].bids[name].high, states[i + 1].bids[name].high,
                     Rebids(states, events, name, i + 1, j - 1));
      }
    }
  }

  lemma {:induction false} NoRebids(first: int)
    requires first > 0
    ensures Compounded(first, first, 0)
  {
  }

  lemma {:induction false} SameCompound(high: int, high': int, first: int, k: nat)
    requires Abs(high') == Abs(high) && Compounded(high, first, k)
    ensures Compounded(high', first, k)
  {
  }

  lemma {:induction false} FirstOffer(states: seq<State>, events: seq<Event>, opening: nat, name: Name, i: nat)
    requires IsRun(states, events) && Inv(states[0], opening) && i < |events| && Bids(states[i], events[i], name)
    ensures name in states[i + 1].bids && states[i + 1].bids[name].high > 0
  {
    hide Inv, Next, Bids;
    RunSound(states, events, opening, i);
    assert Next(states[i], events[i], states[i + 1]);
    NextBid(states[i], events[i], states[i + 1], name, opening);
  }

  // ---------------------------------------------------------------- whose bid it is

  /** What the events say about the bid on a name: who made it, how much it is and when. */
  datatype Offer = NoOffer | Offer(bidder: Name, amount: int, time: nat)

  function Recorded(bids: A.Bids, name: Name): Offer {
    if name in bids then Offer(bids[name].bidder, Abs(bids[name].high), bids[name].time) else NoOffer
  }

  /** The last accepted bid on `name`. */
  ghost function LastOffer(states: seq<State>, events: seq<Event>, name: Name, i: nat): Offer
    requires i <= |events| && i < |states|
  {
    if i == 0 then Recorded(states[0].bids, name)
    else if Bids(states[i - 1], events[i - 1], name)
    then Offer(events[i - 1].action.bidder, events[i - 1].action.amount, events[i - 1].micros)
    else LastOffer(states, events, name, i - 1)
  }

  /** In every state of every run the bid recorded on a name is the last one accepted on it, with its bidder, amount and
      time; a bid that is no longer recorded was claimed, and its name is an account. */
  lemma {:induction false} RunOffers(states: seq<State>, events: seq<Event>, opening: nat, name: Name, i: nat)
    requires IsRun(states, events) && Inv(states[0], opening) && i < |states|
    ensures name in states[i].bids ==> Recorded(states[i].bids, name) == LastOffer(states, events, name, i)
    ensures name !in states[i].bids && LastOffer(states, events, name, i) != NoOffer ==> name in states[i].accounts
    decreases i
  {
    hide Inv, Next, Bids;
    if i > 0 {
      RunOffers(states, events, opening, name, i - 1);
      RunSound(states, events, opening, i - 1);
      assert Next(states[i - 1], events[i - 1], states[i]);
      NextBid(states[i - 1], events[i - 1], states[i], name, opening);
    }
  }

  /** An accepted bid that beats a standing one takes the new amount from its sender, gives the old amount back to the
      sender of the bid it beats, and leaves the difference with the auction account; a first bid leaves all of it
      there. Nobody else's balance moves. */
  lemma {:induction false} RebidPays(states: seq<State>, events: seq<Event>, opening: nat, name: Name, i: nat, o: Name)
    requires IsRun(states, events) && Inv(states[0], opening) && i < |events| && Bids(states[i], events[i], name)
    ensures var a, beaten := events[i].action, LastOffer(states, events, name, i);
      && (name in states[i].bids ==> beaten.Offer? && 11 * beaten.amount < 10 * a.amount)
      && S.Funds(states[i + 1].core.token, o) == S.Funds(states[i].core.token, o)
           - (if o == a.bidder then a.amount else 0) + (if o == NAMES then a.amount else 0)
           + (if name in states[i].bids && o == beaten.bidder then beaten.amount else 0)
           - (if name in states[i].bids && o == NAMES then beaten.amount else 0)
  {
    hide Inv, Next, LastOffer, Commits, S.Funds, R.Live;
    RunSound(states, events, opening, i);
    assert Next(states[i], events[i], states[i + 1]);
    NextBid(states[i], events[i], states[i + 1], name, opening);
    RunOffers(states, events, opening, name, i);
    J.NextEnters(states[i], events[i], states[i + 1], opening, J.Tokens(o));
    BidFlow(states[i], events[i], o);
  }

  lemma {:induction false} BidFlow(s: State, ev: Event, o: Name)
    requires ev.action.BidName? && Commits(s, ev)
    ensures var a, b := ev.action, s.bids;
      J.Entered(s, ev, J.Tokens(o)) == (if o == NAMES then a.amount else 0) - (if o == a.bidder then a.amount else 0)
        + (if a.name in b && o == b[a.name].bidder then b[a.name].high else 0)
        - (if a.name in b && o == NAMES then b[a.name].high else 0)
  {
    hide Apply, Legal, V.Sound;
    var a, p := ev.action, J.Payment(ev.action.bidder, NAMES, ev.action.amount);
    J.OnePayment(p, o);
    if a.name in s.bids {
      var q := J.Payment(NAMES, s.bids[a.name].bidder, s.bids[a.name].high);
      assert [p] + [q] == [p, q];
      J.TwoPayments(p, q, o);
      J.OnePayment(q, o);
    } else {
      assert [p] + [] == [p];
    }
  }

  /** A name that needs a won auction is created, but for the system account, only by the sender of the last accepted
      bid on it, after a block has closed the auction. */
  lemma {:induction false} ClaimedByWinner(states: seq<State>, events: seq<Event>, opening: nat, name: Name, i: nat)
    requires IsRun(states, events) && Inv(states[0], opening) && i < |events|
    requires events[i].action.NewAccount? && events[i].action.name == name && Commits(states[i], events[i])
    requires events[i].action.creator != SYSTEM && A.HasDot(name) && A.Suffix(name) == name
    ensures name in states[i].bids && states[i].bids[name].high < 0
    ensures var offer := LastOffer(states, events, name, i);
      offer.Offer? && offer.bidder == events[i].action.creator && offer.amount == -states[i].bids[name].high
  {
    hide Inv, Next, LastOffer, Ready, Legal, A.HasDot, A.Suffix, A.NewAccount;
    RunOffers(states, events, opening, name, i);
    var s := states[i];
    NewAccountIff(s.core.ledger, s.bids, s.accounts, events[i].action.creator, name);
  }
}
