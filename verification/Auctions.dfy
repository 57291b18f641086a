/** Auctions of short account names: bidname, the close in onblock and the claim in newaccount. */
module Auctions {
  import opened Base
  import Token
  import opened Staking

  /** name_bid; a negative high bid is a closed auction waiting to be claimed. */
  datatype Bid = Bid(bidder: Name, high: int, time: nat)

  type Bids = map<Name, Bid>

  const TWO64 := 0x1_0000_0000_0000_0000

  /** A subtraction of unsigned 64-bit times. */
  function Minus64(a: int, b: int): int { (a - b) % TWO64 }

  // ---------------------------------------------------------------- names

  function Pow2(n: nat): nat { if n == 0 then 1 else 2 * Pow2(n - 1) }

  lemma {:induction false} Pow2Positive(n: nat)
    ensures Pow2(n) > 0
  {
    if n > 0 { Pow2Positive(n - 1); }
  }

  /** The five-bit character of a name whose lowest bit has the given weight. */
  function CharAt(n: Name, bit: nat): int {
    Pow2Positive(bit);
    n / Pow2(bit) % 32
  }

  /** The loop of name_suffix: the bits after the last dot that is followed by another character. */
  function BitsAfterDot(n: Name, i: nat, tmp: nat, last: nat): nat
    requires i <= 12
    decreases 12 - i
  {
    if i == 12 then (if n % 16 != 0 then tmp else last)
    else if CharAt(n, 59 - 5 * i) == 0 then BitsAfterDot(n, i + 1, 59 - 5 * i, last)
    else BitsAfterDot(n, i + 1, tmp, tmp)
  }

  /** The mask and the shift of name_suffix: the low bits of a name moved to the top, the thirteenth character of four
      bits as one of five. */
  function Shifted(n: Name, bits: nat): int
    requires 0 < bits < 64
  {
    Pow2Positive(bits);
    ((n % Pow2(bits) - n % 16) * Pow2(64 - bits) + n % 16 * Pow2(63 - bits)) % TWO64
  }

  /** name_suffix: the part of a name after its last dot. */
  function Suffix(n: Name): int {
    var bits := BitsAfterDot(n, 0, 0, 0);
    if bits == 0 || bits >= 64 then n else Shifted(n, bits)
  }

  /** Only unused top-level names of at most eleven characters can be bid on. */
  predicate Biddable(n: Name, accounts: set<Name>) {
    Suffix(n) == n && n != NO_NAME && n % 16 == 0 && n / 16 % 32 == 0 && n !in accounts
  }

  /** The name has a dot or is shorter than twelve characters. */
  predicate HasDot(n: Name) { exists i: nat :: i < 12 && CharAt(n, 4 + 5 * i) == 0 }

  // ---------------------------------------------------------------- bidding

  /** The rebid rule, on integers. */
  predicate Raises(high: int, bid: int) { bid - high > high / 10 }

  /** bidname. */
  function PlaceBid(t: Token.State, bids: Bids, e: Env, bidder: Name, name: Name,
                    amount: int): Outcome<(Token.State, Bids)> {
    if !Biddable(name, e.accounts) then Abort(BadName) else
    :- Assert(amount > 0, QuantityNotPositive);
    var t1 :- Pay(t, e, bidder, NAMES, amount);
    var bids' := bids[name := Bid(bidder, amount, e.micros)];
    if name !in bids then Commit((t1, bids')) else
      var b := bids[name];
      :- Assert(b.high > 0, AuctionClosed);
      :- Assert(Raises(b.high, amount), BidTooLow);
      :- Assert(b.bidder != bidder, AlreadyHighest);
      var t2 :- Pay(t1, e, NAMES, b.bidder, b.high);
      Commit((t2, bids'))
  }

  // ---------------------------------------------------------------- closing

  /** by_high_bid: the negated bid as an unsigned 64-bit number. */
  function Key(b: Bid): int { (-b.high) % TWO64 }

  /** `n` is the first row of the highbid index; ties go by name. */
  ghost predicate IsFirst(bids: Bids, n: Name) {
    n in bids && forall m <- bids :: Key(bids[n]) < Key(bids[m]) || (Key(bids[n]) == Key(bids[m]) && n <= m)
  }

  /** The auction part of onblock: the first row of the index is closed if it is open, old enough and the
      chain has been activated for two weeks. */
  predicate CanClose(b: Bid, micros: nat, threshold: nat) {
    && b.high > 0 && b.time < Minus64(micros, MICROS_PER_DAY)
    && threshold > 0 && Minus64(micros, threshold) > 14 * MICROS_PER_DAY
  }

  function Close(bids: Bids, n: Name): Bids
    requires n in bids
  {
    bids[n := bids[n].(high := -bids[n].high)]
  }

  ghost function CloseFirst(bids: Bids, first: Name, micros: nat, threshold: nat): (Bids, bool)
    requires bids != map[] ==> IsFirst(bids, first)
  {
    if bids != map[] && CanClose(bids[first], micros, threshold) then (Close(bids, first), true) else (bids, false)
  }

  // ---------------------------------------------------------------- claiming

  /** newaccount by `creator`: a name with a dot, or a short one, needs a won auction or a matching suffix;
      every new account starts with an empty resource row. */
  ghost function NewAccount(l: Ledger, bids: Bids, accounts: set<Name>, creator: Name,
                            name: Name): Outcome<(Ledger, Bids)> {
    if name in accounts then Abort(AccountExists) else
    var bids' :-
      if creator == SYSTEM || !HasDot(name) then Commit(bids)
      else if Suffix(name) == name then
        :- Assert(name in bids, NoBid);
        :- Assert(bids[name].bidder == creator, NotHighBidder);
        :- Assert(bids[name].high < 0, AuctionOpen);
        Commit(bids - {name})
      else
        :- Assert(Suffix(name) == creator, NotSuffix);
        Commit(bids);
    :- Assert(name !in l.userres, RowExists);
    Commit((l.(userres := l.userres[name := Resources(0, 0, 0)]), bids'))
  }
}
