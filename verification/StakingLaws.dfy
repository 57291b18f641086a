/** What staking keeps: totals equal to the sums of the delegations, voting stake equal to what an
    account delegates, and a stake account that covers what it owes. */
module StakingLaws {
  import opened Base
  import opened Votes
  import opened VoteWeight
  import Polls
  import Token
  import opened Staking
  import opened VoteSums
  import opened VoteExact

  ghost function NetColumn(d: Delegations, r: Name): map<(Name, Name), int> {
    map k | k in d && k.1 == r :: d[k].net
  }

  ghost function CpuColumn(d: Delegations, r: Name): map<(Name, Name), int> {
    map k | k in d && k.1 == r :: d[k].cpu
  }

  ghost function GivenColumn(d: Delegations, f: Name): map<(Name, Name), int> {
    map k | k in d && k.0 == f :: d[k].net + d[k].cpu
  }

  ghost function OthersColumn(d: Delegations): map<(Name, Name), int> {
    map k | k in d && k.0 != STAKE :: d[k].net + d[k].cpu
  }

  ghost function PendingColumn(refunds: map<Name, RefundRequest>): map<Name, int> {
    map o | o in refunds :: refunds[o].net + refunds[o].cpu
  }

  ghost predicate ReceiverSound(l: Ledger, r: Name) {
    && ResourcesOf(l.userres, r).net == Sum(NetColumn(l.delband, r))
    && ResourcesOf(l.userres, r).cpu == Sum(CpuColumn(l.delband, r))
  }

  ghost predicate GiverSound(d: Delegations, voters: Voters, f: Name) {
    Polls.StakeOf(voters, f) == Sum(GivenColumn(d, f))
  }

  /** Every delegation and refund row is non-negative and not empty. */
  ghost predicate RowsSound(l: Ledger) {
    && (forall k <- l.delband :: 0 <= l.delband[k].net && 0 <= l.delband[k].cpu && 0 < l.delband[k].net + l.delband[k].cpu)
    && (forall o <- l.refunds :: 0 <= l.refunds[o].net && 0 <= l.refunds[o].cpu && 0 < l.refunds[o].net + l.refunds[o].cpu)
    && STAKE !in l.refunds
  }

  /** A receiver's totals are the sum of the delegations to it, and a voter's stake is the sum of the
      delegations it has made. */
  ghost predicate LedgerSound(l: Ledger, voters: Voters) {
    && RowsSound(l)
    && (forall r: Name {:trigger ReceiverSound(l, r)} :: ReceiverSound(l, r))
    && (forall f: Name {:trigger GiverSound(l.delband, voters, f)} :: GiverSound(l.delband, voters, f))
  }

  /** What the stake account holds beyond what it owes: the delegations of all other accounts and
      every pending refund. */
  ghost function Slack(t: Token.State, l: Ledger): int {
    Funds(t, STAKE) - Sum(OthersColumn(l.delband)) - Sum(PendingColumn(l.refunds))
  }

  // ---------------------------------------------------------------- one delegation moves

  ghost predicate OneRow(d: Delegations, d': Delegations, k: (Name, Name), net: int, cpu: int) {
    && (forall x :: x != k ==> (x in d <==> x in d'))
    && (forall x <- d :: x != k ==> d[x] == d'[x])
    && RowOf(d', k) == Bandwidth(RowOf(d, k).net + net, RowOf(d, k).cpu + cpu)
  }

  lemma {:induction false} ReceiverSums(d: Delegations, d': Delegations, k: (Name, Name), net: int, cpu: int, r: Name)
    requires OneRow(d, d', k, net, cpu)
    ensures Sum(NetColumn(d', r)) == Sum(NetColumn(d, r)) + if k.1 == r then net else 0
    ensures Sum(CpuColumn(d', r)) == Sum(CpuColumn(d, r)) + if k.1 == r then cpu else 0
  {
    hide Sum;
    SumChange(NetColumn(d, r), NetColumn(d', r), k);
    SumChange(CpuColumn(d, r), CpuColumn(d', r), k);
  }

  lemma {:induction false} GiverSums(d: Delegations, d': Delegations, k: (Name, Name), net: int, cpu: int, f: Name)
    requires OneRow(d, d', k, net, cpu)
    ensures Sum(GivenColumn(d', f)) == Sum(GivenColumn(d, f)) + if k.0 == f then net + cpu else 0
    ensures Sum(OthersColumn(d')) == Sum(OthersColumn(d)) + if k.0 != STAKE then net + cpu else 0
  {
    hide Sum;
    SumChange(GivenColumn(d, f), GivenColumn(d', f), k);
    SumChange(OthersColumn(d), OthersColumn(d'), k);
  }

  /** What one account delegates to another is part of both sums. */
  lemma {:induction false} RowWithinSums(l: Ledger, voters: Voters, k: (Name, Name))
    requires LedgerSound(l, voters)
    ensures 0 <= RowOf(l.delband, k).net <= ResourcesOf(l.userres, k.1).net
    ensures 0 <= RowOf(l.delband, k).cpu <= ResourcesOf(l.userres, k.1).cpu
    ensures RowOf(l.delband, k).net + RowOf(l.delband, k).cpu <= Polls.StakeOf(voters, k.0)
  {
    hide Sum;
    assert ReceiverSound(l, k.1) && GiverSound(l.delband, voters, k.0);
    SumAtLeast(NetColumn(l.delband, k.1), k);
    SumAtLeast(CpuColumn(l.delband, k.1), k);
    SumAtLeast(GivenColumn(l.delband, k.0), k);
  }

  /** Once the per-delegation checks pass, the asserts on the receiver's totals cannot fire. */
  lemma {:induction false} MoveIff(l: Ledger, voters: Voters, from: Name, to: Name, net: int, cpu: int)
    requires LedgerSound(l, voters)
    ensures MoveBandwidth(l, from, to, net, cpu).Commit?
      <==> RowOf(l.delband, (from, to)).net + net >= 0 && RowOf(l.delband, (from, to)).cpu + cpu >= 0
  {
    hide LedgerSound;
    RowWithinSums(l, voters, (from, to));
  }

  lemma {:induction false} MoveOneRow(l: Ledger, from: Name, to: Name, net: int, cpu: int)
    requires MoveBandwidth(l, from, to, net, cpu).Commit?
    ensures var l' := MoveBandwidth(l, from, to, net, cpu).value;
      && OneRow(l.delband, l'.delband, (from, to), net, cpu)
      && l'.refunds == l.refunds && l'.deferred == l.deferred
      && (forall r: Name :: r != to ==> ResourcesOf(l'.userres, r) == ResourcesOf(l.userres, r))
      && ResourcesOf(l'.userres, to).net == ResourcesOf(l.userres, to).net + net
      && ResourcesOf(l'.userres, to).cpu == ResourcesOf(l.userres, to).cpu + cpu
      && ResourcesOf(l'.userres, to).ram == ResourcesOf(l.userres, to).ram
  {
  }

  /** The first two blocks of changebw and the voting stake keep the ledger sound together. */
  lemma {:induction false} MoveSound(l: Ledger, voters: Voters, from: Name, to: Name, net: int, cpu: int,
                                     voters': Voters)
    requires LedgerSound(l, voters) && MoveBandwidth(l, from, to, net, cpu).Commit?
    requires forall f: Name {:trigger Polls.StakeOf(voters', f)} ::
      Polls.StakeOf(voters', f) == Polls.StakeOf(voters, f) + if f == from then net + cpu else 0
    ensures LedgerSound(MoveBandwidth(l, from, to, net, cpu).value, voters')
  {
    hide Sum;
    var l' := MoveBandwidth(l, from, to, net, cpu).value;
    var k := (from, to);
    MoveOneRow(l, from, to, net, cpu);
    forall r: Name ensures ReceiverSound(l', r) {
      assert ReceiverSound(l, r);
      ReceiverSums(l.delband, l'.delband, k, net, cpu, r);
    }
    forall f: Name ensures GiverSound(l'.delband, voters', f) {
      assert GiverSound(l.delband, voters, f);
      GiverSums(l.delband, l'.delband, k, net, cpu, f);
    }
  }

  // ---------------------------------------------------------------- the refund settlement

  lemma {:induction false} PendingRow(r: map<Name, RefundRequest>, r': map<Name, RefundRequest>, o: Name)
    requires forall x :: x != o ==> (x in r <==> x in r')
    requires forall x <- r :: x != o ==> r[x] == r'[x]
    ensures Sum(PendingColumn(r')) == Sum(PendingColumn(r))
      + RefundOf(r', o).net + RefundOf(r', o).cpu - RefundOf(r, o).net - RefundOf(r, o).cpu
  {
    hide Sum;
    SumChange(PendingColumn(r), PendingColumn(r'), o);
  }

  /** The settlement conserves: what leaves the refund and what is due in tokens is what is staked. */
  lemma {:induction false} SettleSums(l: Ledger, from: Name, toSelf: bool, net: int, cpu: int, now: nat)
    requires RowsSound(l) && from != STAKE
    requires (net >= 0 && cpu >= 0) || (net <= 0 && cpu <= 0)
    ensures var (l', due) := Settle(l, from, toSelf, net, cpu, now);
      && l'.delband == l.delband && l'.userres == l.userres && RowsSound(l')
      && due >= 0 && (net + cpu < 0 ==> due == 0)
      && Sum(PendingColumn(l'.refunds)) + (net + cpu) == Sum(PendingColumn(l.refunds)) + due
  {
    hide Sum, PendingColumn;
    var (l', due) := Settle(l, from, toSelf, net, cpu, now);
    PendingRow(l.refunds, l'.refunds, from);
  }

  lemma {:induction false} SettleKeepsLedger(l: Ledger, voters: Voters, from: Name, toSelf: bool, net: int, cpu: int,
                                             now: nat)
    requires LedgerSound(l, voters) && (from == STAKE ==> !toSelf && net + cpu >= 0)
    requires (net >= 0 && cpu >= 0) || (net <= 0 && cpu <= 0)
    ensures LedgerSound(Settle(l, from, toSelf, net, cpu, now).0, voters)
  {
    hide Sum;
    var l' := Settle(l, from, toSelf, net, cpu, now).0;
    if from != STAKE { SettleSums(l, from, toSelf, net, cpu, now); }
    forall r: Name ensures ReceiverSound(l', r) { assert ReceiverSound(l, r); }
    forall f: Name ensures GiverSound(l'.delband, voters, f) { assert GiverSound(l.delband, voters, f); }
  }

  // ---------------------------------------------------------------- token payments

  /** The core token exists with its symbol. */
  ghost predicate CoreLive(t: Token.State) {
    Token.CORE.code in t.stats && t.stats[Token.CORE.code].supply.symbol == Token.CORE
  }

  lemma {:induction false} PayEffect(t: Token.State, e: Env, from: Name, to: Name, amount: int)
    requires Token.Sound(t)
    ensures var r := Pay(t, e, from, to, amount);
      && (CoreLive(t) ==>
            (r.Commit? <==> from != to && to in e.accounts && 0 < amount <= Funds(t, from)))
      && (r.Commit? ==>
            && Token.Sound(r.value) && r.value.stats == t.stats && 0 < amount <= Funds(t, from) && from != to
            && forall o: Name {:trigger Funds(r.value, o)} :: Funds(r.value, o) == Funds(t, o)
                 + (if o == to then amount else 0) - (if o == from then amount else 0))
  {
    hide Token.Transfer, Token.Sound;
    var q := Token.Asset(amount, Token.CORE);
    Token.TransferIff(t, e.accounts, from, to, q, 0);
    if Pay(t, e, from, to, amount).Commit? {
      Token.TransferSound(t, e.accounts, from, to, q, 0);
      Token.TransferMoves(t, e.accounts, from, to, q, 0);
    }
  }

  lemma {:induction false} FundsNonNegative(t: Token.State, o: Name)
    requires Token.Sound(t)
    ensures 0 <= Funds(t, o)
  {
    if (o, Token.CORE.code) in t.accounts { assert Token.RowSound(t, (o, Token.CORE.code)); }
  }

  // ---------------------------------------------------------------- what changebw keeps

  /** All invariants of the tables that staking keeps in step. */
  ghost predicate CoreSound(c: Core, now: nat) {
    && Token.Sound(c.token) && CoreLive(c.token)
    && Sound(c.book)
    && LedgerSound(c.ledger, c.book.voters)
    && Polls.Sound(c.polls, c.book.voters, now)
  }

  predicate SameSign(net: int, cpu: int) { (net >= 0 && cpu >= 0) || (net <= 0 && cpu <= 0) }

  /** The redundant sign test of changebw is exactly that the deltas do not have opposite signs. */
  lemma {:induction false} SignTest(net: int, cpu: int)
    ensures Abs(net + cpu) >= Max(Abs(net), Abs(cpu)) <==> SameSign(net, cpu)
  {
  }

  /** The voter table after the last block: only `from`'s stake moved. */
  lemma {:induction false} StakeMoves(b: Book, from: Name, d: int, e: Env)
    requires Sound(b) && from != NO_NAME && StakeVotes(b, e, from, d).Commit?
    ensures AddStake(b, from, d, e.Now()).Commit?
    ensures var b' := StakeVotes(b, e, from, d).value;
      && Sound(b')
      && from in b'.voters && SameStakes(AddStake(b, from, d, e.Now()).value.voters, b'.voters)
      && SameRegister(b.producers, b'.producers)
      && forall f: Name {:trigger Polls.StakeOf(b'.voters, f)} ::
           Polls.StakeOf(b'.voters, f) == Polls.StakeOf(b.voters, f) + if f == from then d else 0
  {
    hide UpdateVotes, Sound;
    AddStakeSound(b, from, d, e.Now());
    var b1 := AddStake(b, from, d, e.Now()).value;
    var row := b1.voters[from];
    if HasVote(b1, from) {
      UpdateVotesSound(b1, from, row.proxy, row.producers, false, e.scale);
      UpdateVotesStakes(b1, from, row.proxy, row.producers, false, e.scale);
    }
  }

  lemma {:induction false} BookedSound(l: Ledger, voters: Voters, payer: Name, receiver: Name, net: int, cpu: int,
                                       transfer: bool, now: nat, voters': Voters)
    requires LedgerSound(l, voters) && SameSign(net, cpu) && (transfer ==> net + cpu > 0)
    requires Booked(l, payer, receiver, net, cpu, transfer, now).Commit?
    requires forall f: Name {:trigger Polls.StakeOf(voters', f)} ::
      Polls.StakeOf(voters', f) == Polls.StakeOf(voters, f)
        + if f == (if transfer then receiver else payer) then net + cpu else 0
    ensures LedgerSound(Booked(l, payer, receiver, net, cpu, transfer, now).value.0, voters')
  {
    hide LedgerSound, MoveBandwidth, Settle;
    var from := if transfer then receiver else payer;
    MoveSound(l, voters, from, receiver, net, cpu, voters');
    if payer != STAKE {
      SettleKeepsLedger(MoveBandwidth(l, from, receiver, net, cpu).value, voters', from,
                        !transfer && from == receiver, net, cpu, now);
    }
  }

  /** Bookkeeping conserves: unless the stake account pays, what is owed grows exactly by what is due. */
  lemma {:induction false} BookedConserves(l: Ledger, payer: Name, receiver: Name, net: int, cpu: int, transfer: bool,
                                           now: nat)
    requires RowsSound(l) && SameSign(net, cpu) && (transfer ==> net + cpu > 0) && payer != STAKE
    requires Booked(l, payer, receiver, net, cpu, transfer, now).Commit?
    ensures var (l', due) := Booked(l, payer, receiver, net, cpu, transfer, now).value;
      && due >= 0 && (net + cpu < 0 ==> due == 0)
      && Sum(OthersColumn(l'.delband)) + Sum(PendingColumn(l'.refunds))
         == Sum(OthersColumn(l.delband)) + Sum(PendingColumn(l.refunds))
            + if transfer && receiver == STAKE then 0 else due
  {
    hide Sum, Settle, MoveBandwidth, OthersColumn, PendingColumn, OneRow, RowsSound;
    var from := if transfer then receiver else payer;
    var l1 := MoveBandwidth(l, from, receiver, net, cpu).value;
    MoveOneRow(l, from, receiver, net, cpu);
    MoveRows(l, from, receiver, net, cpu);
    GiverSums(l.delband, l1.delband, (from, receiver), net, cpu, from);
    if from != STAKE {
      SettleSums(l1, from, !transfer && from == receiver, net, cpu, now);
    } else {
      SettleNothing(l1, from, net, cpu, now);
    }
  }

  lemma {:induction false} MoveRows(l: Ledger, from: Name, to: Name, net: int, cpu: int)
    requires RowsSound(l) && MoveBandwidth(l, from, to, net, cpu).Commit?
    ensures RowsSound(MoveBandwidth(l, from, to, net, cpu).value)
  {
  }

  /** A stake for somebody else leaves the refunds alone. */
  lemma {:induction false} SettleNothing(l: Ledger, from: Name, net: int, cpu: int, now: nat)
    requires net + cpu > 0
    ensures var (l', due) := Settle(l, from, false, net, cpu, now);
      l'.delband == l.delband && l'.refunds == l.refunds && due == net + cpu
  {
  }

  /** changebw keeps the token, the votes and the ledger sound; only the voting stake of the account
      charged moves. */
  lemma {:induction false} ChangeBandwidthSound(c: Core, e: Env, payer: Name, receiver: Name, net: int, cpu: int,
                                                transfer: bool)
    requires CoreSound(c, e.Now()) && payer != NO_NAME && receiver != NO_NAME
    requires transfer ==> net + cpu > 0
    requires ChangeBandwidth(c, e, payer, receiver, net, cpu, transfer).Commit?
    ensures var c' := ChangeBandwidth(c, e, payer, receiver, net, cpu, transfer).value;
      var from := if transfer then receiver else payer;
      && Token.Sound(c'.token) && c'.token.stats == c.token.stats
      && Sound(c'.book)
      && LedgerSound(c'.ledger, c'.book.voters)
      && c'.polls == c.polls
      && SameRegister(c.book.producers, c'.book.producers)
      && from in c'.book.voters
      && AddStake(c.book, from, net + cpu, e.Now()).Commit?
      && SameStakes(AddStake(c.book, from, net + cpu, e.Now()).value.voters, c'.book.voters)
  {
    hide LedgerSound, Booked, Token.Sound, Pay, Sound, StakeVotes, Polls.Sound, AddStake;
    var from := if transfer then receiver else payer;
    SignTest(net, cpu);
    BookedIs(c, e, payer, receiver, net, cpu, transfer);
    var (l', due) := Booked(c.ledger, payer, receiver, net, cpu, transfer, e.Now()).value;
    StakeMoves(c.book, from, net + cpu, e);
    var c' := ChangeBandwidth(c, e, payer, receiver, net, cpu, transfer).value;
    BookedSound(c.ledger, c.book.voters, payer, receiver, net, cpu, transfer, e.Now(), c'.book.voters);
    PayEffect(c.token, e, payer, STAKE, due);
  }

  lemma {:induction false} BookedIs(c: Core, e: Env, payer: Name, receiver: Name, net: int, cpu: int, transfer: bool)
    requires Sound(c.book) && payer != NO_NAME && receiver != NO_NAME
    requires ChangeBandwidth(c, e, payer, receiver, net, cpu, transfer).Commit?
    ensures SameSign(net, cpu)
    ensures var from := if transfer then receiver else payer;
      var c' := ChangeBandwidth(c, e, payer, receiver, net, cpu, transfer).value;
      && Booked(c.ledger, payer, receiver, net, cpu, transfer, e.Now()).Commit?
      && var (l', due) := Booked(c.ledger, payer, receiver, net, cpu, transfer, e.Now()).value;
         && c'.ledger == l'
         && (due > 0 ==> Pay(c.token, e, payer, STAKE, due) == Commit(c'.token))
         && (due <= 0 ==> c'.token == c.token)
         && StakeVotes(c.book, e, from, net + cpu) == Commit(c'.book)
         && AddStake(c.book, from, net + cpu, e.Now()).Commit?
  {
    hide Pay, Sound, Revote, AddStake, Booked;
    SignTest(net, cpu);
  }

  /** Every step that the stake account does not pay for keeps its slack, and a stake transferred to
      the stake account itself increases it. */
  lemma {:induction false} ChangeBandwidthSlack(c: Core, e: Env, payer: Name, receiver: Name, net: int, cpu: int,
                                                transfer: bool)
    requires CoreSound(c, e.Now()) && payer != NO_NAME && receiver != NO_NAME && payer != STAKE
    requires transfer ==> net + cpu > 0
    requires ChangeBandwidth(c, e, payer, receiver, net, cpu, transfer).Commit?
    ensures var c' := ChangeBandwidth(c, e, payer, receiver, net, cpu, transfer).value;
      Slack(c'.token, c'.ledger) == Slack(c.token, c.ledger)
        + if transfer && receiver == STAKE then net + cpu else 0
  {
    hide ChangeBandwidth, Booked, Sum, Token.Sound, Pay, Sound;
    BookedIs(c, e, payer, receiver, net, cpu, transfer);
    var (l', due) := Booked(c.ledger, payer, receiver, net, cpu, transfer, e.Now()).value;
    BookedConserves(c.ledger, payer, receiver, net, cpu, transfer, e.Now());
    PayEffect(c.token, e, payer, STAKE, due);
    if transfer && receiver == STAKE { BookedToStake(c.ledger, payer, net, cpu, e.Now()); }
  }

  lemma {:induction false} BookedToStake(l: Ledger, payer: Name, net: int, cpu: int, now: nat)
    requires net + cpu > 0 && payer != STAKE
    requires Booked(l, payer, STAKE, net, cpu, true, now).Commit?
    ensures Booked(l, payer, STAKE, net, cpu, true, now).value.1 == net + cpu
  {
  }

  /** The proposal tallies follow the stake of the account charged. */
  lemma {:induction false} ReweighedSound(c: Core, c1: Core, account: Name, d: int, now: nat)
    requires CoreSound(c, now) && AddStake(c.book, account, d, now).Commit?
    requires Token.Sound(c1.token) && CoreLive(c1.token) && Sound(c1.book) && LedgerSound(c1.ledger, c1.book.voters)
    requires c1.polls == c.polls && account in c1.book.voters
    requires SameStakes(AddStake(c.book, account, d, now).value.voters, c1.book.voters)
    ensures CoreSound(Reweighed(c1, account, Weight(Polls.StakeOf(c.book.voters, account)), now), now)
  {
    hide Polls.Sound, Polls.Restake, Token.Sound, Sound, LedgerSound, Weight;
    var voters := c.book.voters;
    var row := AddStake(c.book, account, d, now).value.voters[account];
    Polls.RestakeSound(c.polls, voters, account, row, now);
    var polls := Polls.Restake(c.polls, account, Weight(row.staked) - Weight(Polls.StakeOf(voters, account)), now);
    Polls.SameStakesSound(polls, voters[account := row], c1.book.voters, now);
  }

  /** delegatebw keeps all five tables in step. */
  lemma {:induction false} DelegateSound(c: Core, e: Env, from: Name, receiver: Name, net: int, cpu: int,
                                         transfer: bool)
    requires CoreSound(c, e.Now()) && from != NO_NAME && receiver != NO_NAME
    ensures var r := Delegate(c, e, from, receiver, net, cpu, transfer);
      r.Commit? ==>
        && CoreSound(r.value, e.Now())
        && SameRegister(c.book.producers, r.value.book.producers)
        && r.value.token.stats == c.token.stats
        && (from != STAKE ==> Slack(r.value.token, r.value.ledger) >= Slack(c.token, c.ledger))
  {
    hide ChangeBandwidth, AddStake, Polls.Sound, Polls.Restake, Token.Sound, Sound, LedgerSound, Weight, SameRegister;
    hide SameStakes, Slack;
    var r := Delegate(c, e, from, receiver, net, cpu, transfer);
    if r.Commit? {
      var account := if transfer then receiver else from;
      var c1 := ChangeBandwidth(c, e, from, receiver, net, cpu, transfer).value;
      ChangeBandwidthSound(c, e, from, receiver, net, cpu, transfer);
      ReweighedSound(c, c1, account, net + cpu, e.Now());
      if from != STAKE { ChangeBandwidthSlack(c, e, from, receiver, net, cpu, transfer); }
    }
  }

  /** undelegatebw keeps all five tables in step. */
  lemma {:induction false} UndelegateSound(c: Core, e: Env, from: Name, receiver: Name, net: int, cpu: int)
    requires CoreSound(c, e.Now()) && from != NO_NAME && receiver != NO_NAME
    ensures var r := Undelegate(c, e, from, receiver, net, cpu);
      r.Commit? ==>
        && CoreSound(r.value, e.Now())
        && SameRegister(c.book.producers, r.value.book.producers)
        && r.value.token.stats == c.token.stats
        && (from != STAKE ==> Slack(r.value.token, r.value.ledger) == Slack(c.token, c.ledger))
  {
    hide ChangeBandwidth, AddStake, Polls.Sound, Polls.Restake, Token.Sound, Sound, LedgerSound, Weight, SameRegister;
    hide SameStakes, Slack;
    var r := Undelegate(c, e, from, receiver, net, cpu);
    if r.Commit? {
      var c1 := ChangeBandwidth(c, e, from, receiver, -net, -cpu, false).value;
      ChangeBandwidthSound(c, e, from, receiver, -net, -cpu, false);
      ReweighedSound(c, c1, from, -net - cpu, e.Now());
      if from != STAKE { ChangeBandwidthSlack(c, e, from, receiver, -net, -cpu, false); }
    }
  }

  /** refund keeps the tables in step and pays out exactly what it stops owing. */
  lemma {:induction false} RefundSound(c: Core, e: Env, owner: Name)
    requires CoreSound(c, e.Now())
    ensures var r := Refund(c, e, owner);
      r.Commit? ==>
        && CoreSound(r.value, e.Now()) && r.value.book == c.book && r.value.polls == c.polls
        && r.value.token.stats == c.token.stats
        && Slack(r.value.token, r.value.ledger) == Slack(c.token, c.ledger)
  {
    hide Pay, Polls.Sound, Token.Sound, Sound, Sum;
    var r := Refund(c, e, owner);
    if r.Commit? {
      var c' := r.value;
      PayEffect(c.token, e, STAKE, owner, c.ledger.refunds[owner].net + c.ledger.refunds[owner].cpu);
      PendingRow(c.ledger.refunds, c'.ledger.refunds, owner);
      forall x: Name ensures ReceiverSound(c'.ledger, x) { assert ReceiverSound(c.ledger, x); }
      forall f: Name ensures GiverSound(c'.ledger.delband, c'.book.voters, f) {
        assert GiverSound(c.ledger.delband, c.book.voters, f);
      }
    }
  }

  // ---------------------------------------------------------------- exactly when the actions commit

  lemma {:induction false} OwedNonNegative(l: Ledger)
    requires RowsSound(l)
    ensures 0 <= Sum(OthersColumn(l.delband)) && 0 <= Sum(PendingColumn(l.refunds))
    ensures forall o <- l.refunds :: l.refunds[o].net + l.refunds[o].cpu <= Sum(PendingColumn(l.refunds))
  {
    hide Sum;
    SumNonNegative(OthersColumn(l.delband));
    SumNonNegative(PendingColumn(l.refunds));
    forall o | o in l.refunds ensures l.refunds[o].net + l.refunds[o].cpu <= Sum(PendingColumn(l.refunds)) {
      SumAtLeast(PendingColumn(l.refunds), o);
    }
  }

  /** As long as the slack is not negative, every matured refund can be paid: refund commits exactly
      when there is a request and its delay is over. */
  lemma {:induction false} RefundIff(c: Core, e: Env, owner: Name)
    requires CoreSound(c, e.Now()) && owner in e.accounts
    requires Slack(c.token, c.ledger) >= 0
    ensures Refund(c, e, owner).Commit?
      <==> owner in c.ledger.refunds && c.ledger.refunds[owner].time + 259200 <= e.Now()
  {
    hide Pay, Polls.Sound, Token.Sound, Sound, Sum;
    OwedNonNegative(c.ledger);
    if owner in c.ledger.refunds {
      PayEffect(c.token, e, STAKE, owner, c.ledger.refunds[owner].net + c.ledger.refunds[owner].cpu);
    }
  }

  /** The assert on negative voting stake cannot fire once the delegation covers the change. */
  lemma {:induction false} StakeCovers(c: Core, from: Name, receiver: Name, net: int, cpu: int, now: nat)
    requires CoreSound(c, now)
    requires RowOf(c.ledger.delband, (from, receiver)).net + net >= 0 && RowOf(c.ledger.delband, (from, receiver)).cpu + cpu >= 0
    ensures AddStake(c.book, from, net + cpu, now).Commit?
      <==> (from == B1 ==> Vested(Polls.StakeOf(c.book.voters, from) + net + cpu, now))
  {
    hide LedgerSound, Polls.Sound, Token.Sound, Sound, Vested;
    RowWithinSums(c.ledger, c.book.voters, (from, receiver));
  }

  /** What the tables say about the vote of `from` once its stake has moved by `d`: it can be re-applied. */
  ghost predicate RevotesAfter(b: Book, from: Name, d: int, now: nat, scale: real)
    requires Sound(b)
  {
    var r := AddStake(b, from, d, now);
    if from == NO_NAME || r.Abort? then true else
      AddStakeSound(b, from, d, now);
      HasVote(r.value, from) ==> Revotes(r.value, from, scale)
  }

  /** With every stored ballot registered it always can. */
  lemma {:induction false} ListedRevotesAfter(b: Book, from: Name, d: int, now: nat, scale: real)
    requires Sound(b) && Listed(b)
    ensures RevotesAfter(b, from, d, now, scale)
  {
    hide Sound, Revotes, Vested;
    var r := AddStake(b, from, d, now);
    if from != NO_NAME && r.Commit? {
      AddStakeSound(b, from, d, now);
      forall u | u in r.value.voters ensures Registered(r.value.voters[u].producers, r.value.producers) {
        if u in b.voters { assert Registered(b.voters[u].producers, b.producers); }
      }
      ListedRevotes(r.value, from, scale);
    }
  }

  lemma {:induction false} StakeVotesIff(c: Core, e: Env, from: Name, receiver: Name, net: int, cpu: int)
    requires CoreSound(c, e.Now()) && from != NO_NAME
    requires RowOf(c.ledger.delband, (from, receiver)).net + net >= 0 && RowOf(c.ledger.delband, (from, receiver)).cpu + cpu >= 0
    ensures StakeVotes(c.book, e, from, net + cpu).Commit?
      <==> && (from == B1 ==> Vested(Polls.StakeOf(c.book.voters, from) + net + cpu, e.Now()))
           && RevotesAfter(c.book, from, net + cpu, e.Now(), e.scale)
  {
    hide LedgerSound, Polls.Sound, Token.Sound, Sound, Vested, AddStake, UpdateVotes, Revotes;
    StakeCovers(c, from, receiver, net, cpu, e.Now());
    var r := AddStake(c.book, from, net + cpu, e.Now());
    if r.Commit? {
      AddStakeSound(c.book, from, net + cpu, e.Now());
      RevoteIff(r.value, from, e.scale);
    }
  }

  /** What delegatebw charges in tokens: staking to oneself first uses the pending refund up. */
  function Due(l: Ledger, payer: Name, receiver: Name, net: int, cpu: int, transfer: bool): int {
    if payer == STAKE then 0
    else if !transfer && payer == receiver then
      Max(net - RefundOf(l.refunds, payer).net, 0) + Max(cpu - RefundOf(l.refunds, payer).cpu, 0)
    else net + cpu
  }

  /** Staking more always books, and what it charges is Due. */
  lemma {:induction false} BookedMore(l: Ledger, voters: Voters, payer: Name, receiver: Name, net: int, cpu: int,
                                      transfer: bool, now: nat)
    requires LedgerSound(l, voters) && net >= 0 && cpu >= 0 && net + cpu > 0 && (transfer ==> payer != receiver)
    ensures var r := Booked(l, payer, receiver, net, cpu, transfer, now);
      r.Commit? && r.value.1 == Due(l, payer, receiver, net, cpu, transfer)
  {
    hide LedgerSound, MoveBandwidth;
    var from := if transfer then receiver else payer;
    RowWithinSums(l, voters, (from, receiver));
    MoveIff(l, voters, from, receiver, net, cpu);
    MoveOneRow(l, from, receiver, net, cpu);
  }

  /** Unstaking books exactly when the delegation is large enough, and charges nothing. */
  lemma {:induction false} BookedLess(l: Ledger, voters: Voters, from: Name, receiver: Name, net: int, cpu: int,
                                      now: nat)
    requires LedgerSound(l, voters) && net >= 0 && cpu >= 0 && net + cpu > 0
    ensures var r := Booked(l, from, receiver, -net, -cpu, false, now);
      && (r.Commit? <==> net <= RowOf(l.delband, (from, receiver)).net && cpu <= RowOf(l.delband, (from, receiver)).cpu)
      && (r.Commit? ==> r.value.1 == 0)
  {
    hide MoveBandwidth, Sum;
    MoveIff(l, voters, from, receiver, -net, -cpu);
    if MoveBandwidth(l, from, receiver, -net, -cpu).Commit? { MoveOneRow(l, from, receiver, -net, -cpu); }
  }

  /** delegatebw commits exactly when the amounts are valid, what is due can be paid, the vesting rule
      allows it and the stored vote can be re-applied; no other assert of changebw or update_votes can fire. */
  lemma {:induction false} DelegateIff(c: Core, e: Env, from: Name, receiver: Name, net: int, cpu: int, transfer: bool)
    requires CoreSound(c, e.Now()) && from != NO_NAME && receiver != NO_NAME
    ensures var account := if transfer then receiver else from;
      var due := Due(c.ledger, from, receiver, net, cpu, transfer);
      Delegate(c, e, from, receiver, net, cpu, transfer).Commit? <==>
        && cpu >= 0 && net >= 0 && net + cpu > 0 && (transfer ==> from != receiver)
        && (due > 0 ==> STAKE in e.accounts && due <= Funds(c.token, from))
        && (account == B1 ==> Vested(Polls.StakeOf(c.book.voters, account) + net + cpu, e.Now()))
        && RevotesAfter(c.book, account, net + cpu, e.Now(), e.scale)
  {
    hide LedgerSound, Polls.Sound, Token.Sound, Sound, Vested, Pay, StakeVotes, Booked, RevotesAfter;
    if cpu >= 0 && net >= 0 && net + cpu > 0 && (transfer ==> from != receiver) {
      var account := if transfer then receiver else from;
      SignTest(net, cpu);
      BookedMore(c.ledger, c.book.voters, from, receiver, net, cpu, transfer, e.Now());
      RowWithinSums(c.ledger, c.book.voters, (account, receiver));
      StakeVotesIff(c, e, account, receiver, net, cpu);
      PayEffect(c.token, e, from, STAKE, Due(c.ledger, from, receiver, net, cpu, transfer));
    }
  }

  /** undelegatebw commits exactly when the chain is activated, the delegation is large enough, the vesting
      rule allows it and the stored vote can be re-applied; it never needs tokens. */
  lemma {:induction false} UndelegateIff(c: Core, e: Env, from: Name, receiver: Name, net: int, cpu: int)
    requires CoreSound(c, e.Now()) && from != NO_NAME && receiver != NO_NAME
    ensures var row := RowOf(c.ledger.delband, (from, receiver));
      Undelegate(c, e, from, receiver, net, cpu).Commit? <==>
        && cpu >= 0 && net >= 0 && net + cpu > 0 && c.polls.stake >= MIN_PROPOSAL_STAKE
        && net <= row.net && cpu <= row.cpu
        && (from == B1 ==> Vested(Polls.StakeOf(c.book.voters, from) - net - cpu, e.Now()))
        && RevotesAfter(c.book, from, -net - cpu, e.Now(), e.scale)
  {
    hide LedgerSound, Polls.Sound, Token.Sound, Sound, Vested, Pay, StakeVotes, Booked, RevotesAfter;
    if cpu >= 0 && net >= 0 && net + cpu > 0 {
      SignTest(-net, -cpu);
      BookedLess(c.ledger, c.book.voters, from, receiver, net, cpu, e.Now());
      var row := RowOf(c.ledger.delband, (from, receiver));
      if net <= row.net && cpu <= row.cpu { StakeVotesIff(c, e, from, receiver, -net, -cpu); }
    }
  }

  // ---------------------------------------------------------------- deferred refunds

  ghost predicate RefundScheduled(l: Ledger, owner: Name) { owner in l.refunds ==> owner in l.deferred }

  /** A pending refund is meant to be paid by a scheduled transaction. After changebw the charged
      account has that exactly when it staked to itself, unstaked, or had no refund pending: staking
      to somebody else, or being given a stake, cancels the schedule and leaves the request. */
  lemma {:induction false} RefundScheduledIff(l: Ledger, payer: Name, receiver: Name, net: int, cpu: int,
                                              transfer: bool, now: nat)
    requires payer != STAKE && Booked(l, payer, receiver, net, cpu, transfer, now).Commit?
    ensures var from := if transfer then receiver else payer;
      RefundScheduled(Booked(l, payer, receiver, net, cpu, transfer, now).value.0, from)
      <==> (!transfer && from == receiver) || net + cpu < 0 || from !in l.refunds
  {
  }

  /** A concrete run: account 6 stakes to itself, unstakes a part, then stakes to account 7. */
  lemma {:induction false} RefundScheduleLost()
    ensures var l0 := Ledger(map[], map[], map[], map[]);
      var l1 := Booked(l0, 6, 6, 300, 200, false, 10);
      && l1.Commit?
      && var l2 := Booked(l1.value.0, 6, 6, -100, -50, false, 20);
         && l2.Commit? && RefundScheduled(l2.value.0, 6) && 6 in l2.value.0.refunds
         && var l3 := Booked(l2.value.0, 6, 7, 1, 0, false, 30);
            l3.Commit? && 6 in l3.value.0.refunds && !RefundScheduled(l3.value.0, 6)
  {
    var l1 := Booked(Ledger(map[], map[], map[], map[]), 6, 6, 300, 200, false, 10).value.0;
    assert l1.delband == map[(6, 6) := Bandwidth(300, 200)];
    assert l1.userres == map[6 := Resources(300, 200, 0)];
    var l2 := Booked(l1, 6, 6, -100, -50, false, 20).value.0;
    assert l2.refunds == map[6 := RefundRequest(20, 100, 50)];
  }

  /** Unstaking restarts the delay of the whole pending refund: it grows by exactly the stake taken back,
      is scheduled, and nothing of it can be claimed before the delay is over. */
  lemma {:induction false} UnstakedWaits(c: Core, e: Env, from: Name, receiver: Name, net: int, cpu: int, later: Env)
    requires CoreSound(c, e.Now()) && from != NO_NAME && receiver != NO_NAME && from != STAKE
    requires Undelegate(c, e, from, receiver, net, cpu).Commit? && later.Now() < e.Now() + REFUND_DELAY
    ensures var c' := Undelegate(c, e, from, receiver, net, cpu).value;
      && RefundOf(c'.ledger.refunds, from)
         == RefundRequest(e.Now(), RefundOf(c.ledger.refunds, from).net + net, RefundOf(c.ledger.refunds, from).cpu + cpu)
      && from in c'.ledger.deferred && c'.ledger.deferred[from] == e.Now() + REFUND_DELAY
      && Refund(c', later, from).Abort?
  {
    hide StakeVotes, Pay, Sound, Token.Sound, Polls.Sound, Sum, ChangeBandwidth;
    BookedIs(c, e, from, receiver, -net, -cpu, false);
    MoveOneRow(c.ledger, from, receiver, -net, -cpu);
  }
}
