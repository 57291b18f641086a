/** What the staking actions do, row by row and account by account. */
module StakingEffects {
  import opened Base
  import opened Votes
  import opened VoteWeight
  import Polls
  import Token
  import opened Staking
  import opened StakingLaws

  // ---------------------------------------------------------------- the pending refund

  /** Only the request of `o` differs. */
  ghost predicate OneRequest(r: map<Name, RefundRequest>, r': map<Name, RefundRequest>, o: Name) {
    && (forall x :: x != o ==> (x in r <==> x in r'))
    && (forall x <- r :: x != o ==> r[x] == r'[x])
  }

  /** Staking to oneself takes each resource out of the pending refund as far as it goes; what is left keeps
      the time of the request. */
  ghost predicate Drawn(r: map<Name, RefundRequest>, r': map<Name, RefundRequest>, o: Name, net: int, cpu: int) {
    && OneRequest(r, r', o)
    && RefundOf(r', o).net == (if net < RefundOf(r, o).net then RefundOf(r, o).net - net else 0)
    && RefundOf(r', o).cpu == (if cpu < RefundOf(r, o).cpu then RefundOf(r, o).cpu - cpu else 0)
    && (o in r' <==> net < RefundOf(r, o).net || cpu < RefundOf(r, o).cpu)
    && (o in r' ==> r'[o].time == RefundOf(r, o).time)
  }

  /** Unstaking adds each resource to the pending refund, and its delay starts anew. */
  ghost predicate Deposited(r: map<Name, RefundRequest>, r': map<Name, RefundRequest>, o: Name, net: int, cpu: int,
                            now: nat) {
    && OneRequest(r, r', o) && o in r'
    && r'[o] == RefundRequest(now, RefundOf(r, o).net + net, RefundOf(r, o).cpu + cpu)
  }

  /** The refund block of changebw, for stakes to oneself, stakes to others and unstaking. */
  lemma {:induction false} SettleRow(l: Ledger, from: Name, toSelf: bool, net: int, cpu: int, now: nat)
    requires RowsSound(l) && SameSign(net, cpu) && net + cpu != 0
    ensures var (l', due) := Settle(l, from, toSelf, net, cpu, now);
      && (net + cpu > 0 && toSelf ==>
            && Drawn(l.refunds, l'.refunds, from, net, cpu)
            && due == net + cpu - (RefundOf(l.refunds, from).net - RefundOf(l'.refunds, from).net)
                                - (RefundOf(l.refunds, from).cpu - RefundOf(l'.refunds, from).cpu))
      && (net + cpu > 0 && !toSelf ==> l'.refunds == l.refunds && due == net + cpu)
      && (net + cpu < 0 ==> Deposited(l.refunds, l'.refunds, from, -net, -cpu, now) && due == 0)
      && (from in l'.deferred <==> from in l'.refunds && (toSelf || net + cpu < 0))
      && (from in l'.deferred ==> l'.deferred[from] == now + 259200)
      && l'.deferred - {from} == l.deferred - {from}
  {
  }

  // ---------------------------------------------------------------- vesting

  /** The account b1 may have unstaked what is released of its hundred million tokens: nothing before June 2018, then
      the same part every second for ten years of fifty-two weeks. */
  lemma {:induction false} VestedIff(staked: int, now: nat)
    ensures var total, start, period := 1_000_000_000_000, 1_527_811_200, 314_496_000;
      && (now >= start ==> (Vested(staked, now) <==> period * (total - staked) <= total * (now - start)))
      && (now < start ==> (Vested(staked, now) <==> total * (start - now) < period * (staked - total + 1)))
  {
  }

  /** Before the start nothing is released, and after the period all of it. */
  lemma {:induction false} VestingEnds(staked: int, now: nat)
    ensures now <= 1_527_811_200 && Vested(staked, now) ==> staked >= 1_000_000_000_000
    ensures now >= 1_527_811_200 + 314_496_000 && staked >= 0 ==> Vested(staked, now)
  {
    hide Vested;
    VestedIff(staked, now);
  }

  // ---------------------------------------------------------------- delegatebw and undelegatebw

  /** One delegation and the totals of its receiver move by `net` and `cpu`; RAM quotas stay. */
  ghost predicate Staked(l: Ledger, l': Ledger, from: Name, to: Name, net: int, cpu: int) {
    && OneRow(l.delband, l'.delband, (from, to), net, cpu)
    && forall r: Name {:trigger ResourcesOf(l'.userres, r)} ::
         && ResourcesOf(l'.userres, r).net == ResourcesOf(l.userres, r).net + (if r == to then net else 0)
         && ResourcesOf(l'.userres, r).cpu == ResourcesOf(l.userres, r).cpu + (if r == to then cpu else 0)
         && ResourcesOf(l'.userres, r).ram == ResourcesOf(l.userres, r).ram
  }

  /** Only `d` is added to the stake of `from`. */
  ghost predicate Restaked(voters: Voters, voters': Voters, from: Name, d: int) {
    forall f: Name {:trigger Polls.StakeOf(voters', f)} ::
      Polls.StakeOf(voters', f) == Polls.StakeOf(voters, f) + if f == from then d else 0
  }

  /** `amount` core tokens go from one account to another. */
  ghost predicate Moved(t: Token.State, t': Token.State, from: Name, to: Name, amount: int) {
    forall o: Name {:trigger Funds(t', o)} ::
      Funds(t', o) == Funds(t, o) + (if o == to then amount else 0) - (if o == from then amount else 0)
  }

  /** The refunds after a delegation. */
  ghost predicate Repaid(l: Ledger, l': Ledger, payer: Name, receiver: Name, net: int, cpu: int, transfer: bool) {
    if payer != STAKE && payer == receiver && !transfer then Drawn(l.refunds, l'.refunds, payer, net, cpu)
    else l'.refunds == l.refunds
  }

  lemma {:induction false} BookedEffect(l: Ledger, voters: Voters, payer: Name, receiver: Name, net: int, cpu: int,
                                        transfer: bool, now: nat)
    requires LedgerSound(l, voters) && SameSign(net, cpu) && net + cpu != 0 && (transfer ==> net + cpu > 0 && payer != receiver)
    requires Booked(l, payer, receiver, net, cpu, transfer, now).Commit?
    ensures var (l', due) := Booked(l, payer, receiver, net, cpu, transfer, now).value;
      var from := if transfer then receiver else payer;
      && Staked(l, l', from, receiver, net, cpu)
      && (net + cpu > 0 ==> Repaid(l, l', payer, receiver, net, cpu, transfer)
                            && due == Due(l, payer, receiver, net, cpu, transfer))
      && (net + cpu < 0 && payer != STAKE ==> Deposited(l.refunds, l'.refunds, payer, -net, -cpu, now))
      && (net + cpu < 0 && payer == STAKE ==> l'.refunds == l.refunds)
      && (net + cpu < 0 ==> due == 0)
  {
    hide MoveBandwidth, Settle, Sum, OneRow, Drawn, Deposited, ReceiverSound, GiverSound;
    var from := if transfer then receiver else payer;
    MoveOneRow(l, from, receiver, net, cpu);
    MoveRows(l, from, receiver, net, cpu);
    var l1 := MoveBandwidth(l, from, receiver, net, cpu).value;
    if payer != STAKE {
      SettleRow(l1, from, !transfer && from == receiver, net, cpu, now);
      SettleKeeps(l1, from, !transfer && from == receiver, net, cpu, now);
    }
    if net + cpu > 0 { BookedMore(l, voters, payer, receiver, net, cpu, transfer, now); }
  }

  lemma {:induction false} SettleKeeps(l: Ledger, from: Name, toSelf: bool, net: int, cpu: int, now: nat)
    ensures var l' := Settle(l, from, toSelf, net, cpu, now).0; l'.delband == l.delband && l'.userres == l.userres
  {
  }

  /** delegatebw, whatever the tables hold: the stake goes to the receiver under the account charged, a stake to
      oneself first uses the pending refund up, and only the payer pays, to the stake account. */
  lemma {:induction false} DelegateEffect(c: Core, e: Env, from: Name, receiver: Name, net: int, cpu: int,
                                          transfer: bool)
    requires CoreSound(c, e.Now()) && from != NO_NAME && receiver != NO_NAME
    ensures var r := Delegate(c, e, from, receiver, net, cpu, transfer);
      var account := if transfer then receiver else from;
      r.Commit? ==>
        && Staked(c.ledger, r.value.ledger, account, receiver, net, cpu)
        && Restaked(c.book.voters, r.value.book.voters, account, net + cpu)
        && Repaid(c.ledger, r.value.ledger, from, receiver, net, cpu, transfer)
        && Moved(c.token, r.value.token, from, STAKE, Due(c.ledger, from, receiver, net, cpu, transfer))
  {
    hide ChangeBandwidth, Booked, LedgerSound, Token.Sound, Sound, Polls.Sound, Pay, StakeVotes, Staked, Repaid;
    hide Reweighed, Due, AddStake, Funds, SameStakes, SameRegister;
    var r := Delegate(c, e, from, receiver, net, cpu, transfer);
    if r.Commit? {
      var account := if transfer then receiver else from;
      BookedIs(c, e, from, receiver, net, cpu, transfer);
      BookedEffect(c.ledger, c.book.voters, from, receiver, net, cpu, transfer, e.Now());
      StakeMoves(c.book, account, net + cpu, e);
      var (l', due) := Booked(c.ledger, from, receiver, net, cpu, transfer, e.Now()).value;
      PayEffect(c.token, e, from, STAKE, due);
      DueNonNegative(c.ledger, from, receiver, net, cpu, transfer);
      TailKeeps(ChangeBandwidth(c, e, from, receiver, net, cpu, transfer).value, account,
                Weight(Polls.StakeOf(c.book.voters, account)), e.Now());
    }
  }

  lemma {:induction false} DueNonNegative(l: Ledger, payer: Name, receiver: Name, net: int, cpu: int, transfer: bool)
    requires net >= 0 && cpu >= 0
    ensures Due(l, payer, receiver, net, cpu, transfer) >= 0
  {
  }

  lemma {:induction false} TailKeeps(c: Core, account: Name, before: int, now: nat)
    ensures var c' := Reweighed(c, account, before, now);
      c'.token == c.token && c'.ledger == c.ledger && c'.book == c.book && c'.threshold == c.threshold
  {
  }

  /** undelegatebw: the delegation and the stake shrink, the pending refund grows by as much in each resource and
      waits anew, and no tokens move. */
  lemma {:induction false} UndelegateEffect(c: Core, e: Env, from: Name, receiver: Name, net: int, cpu: int)
    requires CoreSound(c, e.Now()) && from != NO_NAME && receiver != NO_NAME
    ensures var r := Undelegate(c, e, from, receiver, net, cpu);
      r.Commit? ==>
        && Staked(c.ledger, r.value.ledger, from, receiver, -net, -cpu)
        && Restaked(c.book.voters, r.value.book.voters, from, -net - cpu)
        && (if from == STAKE then r.value.ledger.refunds == c.ledger.refunds
            else Deposited(c.ledger.refunds, r.value.ledger.refunds, from, net, cpu, e.Now()))
        && r.value.token == c.token
  {
    hide ChangeBandwidth, Booked, LedgerSound, Token.Sound, Sound, Polls.Sound, Pay, StakeVotes, Staked, Repaid;
    hide Reweighed, Due, AddStake, Funds, SameStakes, SameRegister, Deposited;
    var r := Undelegate(c, e, from, receiver, net, cpu);
    if r.Commit? {
      BookedIs(c, e, from, receiver, -net, -cpu, false);
      BookedEffect(c.ledger, c.book.voters, from, receiver, -net, -cpu, false, e.Now());
      StakeMoves(c.book, from, -net - cpu, e);
      TailKeeps(ChangeBandwidth(c, e, from, receiver, -net, -cpu, false).value, from,
                Weight(Polls.StakeOf(c.book.voters, from)), e.Now());
    }
  }

  /** refund: the owner of the request is paid what it holds, by the stake account, and the request is gone. */
  lemma {:induction false} RefundPays(c: Core, e: Env, owner: Name)
    requires Token.Sound(c.token)
    ensures var r := Refund(c, e, owner);
      r.Commit? ==>
        && owner in c.ledger.refunds
        && r.value.ledger == c.ledger.(refunds := r.value.ledger.refunds)
        && r.value.ledger.refunds == c.ledger.refunds - {owner}
        && Moved(c.token, r.value.token, STAKE, owner, c.ledger.refunds[owner].net + c.ledger.refunds[owner].cpu)
  {
    hide Pay, Token.Sound, Funds;
    if owner in c.ledger.refunds {
      PayEffect(c.token, e, STAKE, owner, c.ledger.refunds[owner].net + c.ledger.refunds[owner].cpu);
    }
  }

  // ---------------------------------------------------------------- conservation for every account

  /** What an account has: tokens, stakes it has made and stakes on their way back. */
  ghost function Wealth(c: Core, o: Name): int {
    Funds(c.token, o) + Polls.StakeOf(c.book.voters, o) + RefundOf(c.ledger.refunds, o).net + RefundOf(c.ledger.refunds, o).cpu
  }

  /** Staking only moves wealth between its three forms, account by account; a stake that is given away moves it
      from the payer to the receiver. The stake account, which holds what others have staked, is left out. */
  lemma {:induction false} StakingConserves(c: Core, e: Env, from: Name, receiver: Name, net: int, cpu: int,
                                            transfer: bool, o: Name)
    requires CoreSound(c, e.Now()) && from != NO_NAME && receiver != NO_NAME && from != STAKE && o != STAKE
    ensures var r := Delegate(c, e, from, receiver, net, cpu, transfer);
      r.Commit? ==>
        Wealth(r.value, o) == Wealth(c, o) + (if transfer && o == receiver then net + cpu else 0)
                                           - (if transfer && o == from then net + cpu else 0)
    ensures var r := Undelegate(c, e, from, receiver, net, cpu); r.Commit? ==> Wealth(r.value, o) == Wealth(c, o)
    ensures var r := Refund(c, e, o); r.Commit? ==> Wealth(r.value, o) == Wealth(c, o)
  {
    hide Delegate, Undelegate, Refund, LedgerSound, Token.Sound, Sound, Polls.Sound, Staked, Funds, Polls.StakeOf;
    DelegateEffect(c, e, from, receiver, net, cpu, transfer);
    DelegateAmounts(c, e, from, receiver, net, cpu, transfer);
    UndelegateEffect(c, e, from, receiver, net, cpu);
    RefundPays(c, e, o);
    RefundBook(c, e, o);
  }

  lemma {:induction false} DelegateAmounts(c: Core, e: Env, from: Name, receiver: Name, net: int, cpu: int,
                                           transfer: bool)
    requires Sound(c.book) && from != NO_NAME && receiver != NO_NAME
    ensures Delegate(c, e, from, receiver, net, cpu, transfer).Commit? ==>
      net >= 0 && cpu >= 0 && net + cpu > 0 && (transfer ==> from != receiver)
  {
    hide ChangeBandwidth, Sound, Reweighed;
  }

  lemma {:induction false} RefundBook(c: Core, e: Env, owner: Name)
    ensures var r := Refund(c, e, owner); r.Commit? ==> r.value.book == c.book && r.value.polls == c.polls
  {
    hide Pay;
  }
}
