/** Staking as the contract performs it: the staking tables in place, with inline token transfers,
    the vote book and the proposal tallies as the objects it calls. */
module StakeLedger {
  import opened Base
  import opened Votes
  import opened VoteWeight
  import Polls
  import Token
  import opened Staking
  import opened StakingLaws
  import TC = TokenContract
  import VB = VoteBook
  import PB = PollBook

  class StakeLedger {
    const token: TC.TokenContract
    const book: VB.VoteBook
    const polls: PB.PollBook
    var delband: Delegations
    var userres: map<Name, Resources>
    var refunds: map<Name, RefundRequest>
    var deferred: map<Name, nat>
    var threshold: nat

    ghost function Tables(): Ledger
      reads this
    {
      Ledger(delband, userres, refunds, deferred)
    }

    ghost function State(): Core
      reads this, token, book, polls
    {
      Core(token.Tables(), Tables(), book.State(), polls.State(), threshold)
    }

    constructor (token: TC.TokenContract, book: VB.VoteBook, polls: PB.PollBook)
      ensures this.token == token && this.book == book && this.polls == polls
      ensures Tables() == Ledger(map[], map[], map[], map[]) && threshold == 0
    {
      this.token, this.book, this.polls := token, book, polls;
      delband, userres, refunds, deferred, threshold := map[], map[], map[], map[], 0;
    }

    /** The block of changebw that moves a delegation. */
    method MoveDelegation(k: (Name, Name), net: int, cpu: int) returns (ok: bool)
      modifies this`delband
      ensures ok == Staking.MoveDelegation(old(delband), k, net, cpu).Commit?
      ensures ok ==> delband == Staking.MoveDelegation(old(delband), k, net, cpu).value
    {
      if k !in delband {
        delband := delband[k := Bandwidth(net, cpu)];
      } else {
        delband := delband[k := Bandwidth(delband[k].net + net, delband[k].cpu + cpu)];
      }
      if delband[k].net < 0 || delband[k].cpu < 0 { return false; }
      if delband[k].net == 0 && delband[k].cpu == 0 { delband := delband - {k}; }
      return true;
    }

    /** The block of changebw that moves the receiver's totals. */
    method MoveTotals(to: Name, net: int, cpu: int) returns (ok: bool)
      modifies this`userres
      ensures ok == Staking.MoveTotals(old(userres), to, net, cpu).Commit?
      ensures ok ==> userres == Staking.MoveTotals(old(userres), to, net, cpu).value
    {
      if to !in userres {
        userres := userres[to := Resources(net, cpu, 0)];
      } else {
        userres := userres[to := Resources(userres[to].net + net, userres[to].cpu + cpu, userres[to].ram)];
      }
      if userres[to].net < 0 || userres[to].cpu < 0 { return false; }
      if userres[to].net == 0 && userres[to].cpu == 0 && userres[to].ram == 0 { userres := userres - {to}; }
      return true;
    }

    /** The refund block of changebw: create, update or delete the request; returns what is due. */
    method SettleRefund(from: Name, toSelf: bool, net: int, cpu: int, now: nat) returns (due: int)
      requires SameSign(net, cpu)
      requires from in refunds ==> refunds[from].net >= 0 && refunds[from].cpu >= 0
      modifies this`refunds, this`deferred
      ensures (Tables(), due) == Settle(old(Tables()), from, toSelf, net, cpu, now)
    {
      var netBalance, cpuBalance := net, cpu;
      var needDeferred := false;
      if toSelf || net + cpu < 0 {
        if from in refunds {
          var r := refunds[from];
          if netBalance < 0 || cpuBalance < 0 { r := r.(time := now); }
          r := r.(net := r.net - netBalance);
          if r.net < 0 {
            netBalance, r := -r.net, r.(net := 0);
          } else {
            netBalance := 0;
          }
          r := r.(cpu := r.cpu - cpuBalance);
          if r.cpu < 0 {
            cpuBalance, r := -r.cpu, r.(cpu := 0);
          } else {
            cpuBalance := 0;
          }
          refunds := refunds[from := r];
          assert 0 <= r.net && 0 <= r.cpu;
          if r.net == 0 && r.cpu == 0 {
            refunds := refunds - {from};
          } else {
            needDeferred := true;
          }
        } else if netBalance < 0 || cpuBalance < 0 {
          var r := RefundRequest(now, 0, 0);
          if netBalance < 0 { r, netBalance := r.(net := -netBalance), 0; }
          if cpuBalance < 0 { r, cpuBalance := r.(cpu := -cpuBalance), 0; }
          refunds := refunds[from := r];
          needDeferred := true;
        }
      }
      if needDeferred {
        deferred := deferred[from := now + REFUND_DELAY];
      } else {
        deferred := deferred - {from};
      }
      due := netBalance + cpuBalance;
      assert refunds == Settle(old(Tables()), from, toSelf, net, cpu, now).0.refunds;
    }

    /** The voting-power block of changebw. */
    method StakeVotes(e: Env, from: Name, d: int) returns (ok: bool)
      requires Sound(book.State()) && from != NO_NAME
      modifies this`threshold, book
      ensures ok == Staking.StakeVotes(old(book.State()), e, from, d).Commit?
      ensures ok ==> book.State() == Staking.StakeVotes(old(book.State()), e, from, d).value
      ensures ok ==> threshold == if HasVote(old(book.State()), from) && polls.stake >= MIN_PROPOSAL_STAKE && old(threshold) == 0
                                  then e.micros else old(threshold)
    {
      hide Sound, UpdateVotes, Vested;
      ghost var b := book.State();
      if from !in book.voters {
        book.voters := book.voters[from := NEW_VOTER.(staked := d)];
      } else {
        book.voters := book.voters[from := book.voters[from].(staked := book.voters[from].staked + d)];
      }
      var row := book.voters[from];
      if row.staked < 0 || (from == B1 && !Vested(row.staked, e.Now())) { return false; }
      AddStakeSound(b, from, d, e.Now());
      if row.producers != [] || row.proxy != NO_NAME {
        if polls.stake >= MIN_PROPOSAL_STAKE && threshold == 0 { threshold := e.micros; }
        ok := book.UpdateVotes(from, row.proxy, row.producers, false, e.scale);
      } else {
        ok := true;
      }
    }

    /** voteproducer. */
    method VoteProducer(e: Env, voter: Name, proxy: Name, producers: seq<Name>) returns (ok: bool)
      requires Sound(book.State())
      modifies this`threshold, book
      ensures ok == Staking.VoteProducer(old(State()), e, voter, proxy, producers).Commit?
      ensures ok ==> State() == Staking.VoteProducer(old(State()), e, voter, proxy, producers).value
    {
      hide Sound, UpdateVotes;
      if polls.stake >= MIN_PROPOSAL_STAKE && threshold == 0 { threshold := e.micros; }
      ok := book.UpdateVotes(voter, proxy, producers, true, e.scale);
    }

    /** The first three blocks of changebw. */
    method BookStake(e: Env, payer: Name, receiver: Name, net: int, cpu: int, transfer: bool) returns (ok: bool,
                     due: int)
      requires RowsSound(Tables()) && SameSign(net, cpu)
      modifies this`delband, this`userres, this`refunds, this`deferred
      ensures ok == Booked(old(Tables()), payer, receiver, net, cpu, transfer, e.Now()).Commit?
      ensures ok ==> (Tables(), due) == Booked(old(Tables()), payer, receiver, net, cpu, transfer, e.Now()).value
    {
      hide Staking.MoveDelegation, Staking.MoveTotals, Settle;
      var from := if transfer then receiver else payer;
      due := 0;
      ok := MoveDelegation((from, receiver), net, cpu);
      if !ok { return; }
      ok := MoveTotals(receiver, net, cpu);
      if !ok { return; }
      if payer != STAKE {
        due := SettleRefund(from, !transfer && from == receiver, net, cpu, e.Now());
      }
    }

    /** changebw. */
    method ChangeBandwidth(e: Env, payer: Name, receiver: Name, net: int, cpu: int, transfer: bool) returns (ok: bool)
      requires Sound(book.State()) && RowsSound(Tables()) && payer != NO_NAME && receiver != NO_NAME
      modifies this, token, book
      ensures ok == Staking.ChangeBandwidth(old(State()), e, payer, receiver, net, cpu, transfer).Commit?
      ensures ok ==> State() == Staking.ChangeBandwidth(old(State()), e, payer, receiver, net, cpu, transfer).value
    {
      hide Sound, Booked, Staking.StakeVotes, Pay, RowsSound;
      SignTest(net, cpu);
      if net == 0 && cpu == 0 { return false; }
      if Abs(net + cpu) < Max(Abs(net), Abs(cpu)) { return false; }
      var due;
      ok, due := BookStake(e, payer, receiver, net, cpu, transfer);
      if !ok { return; }
      if due > 0 {
        ok := Send(e, payer, STAKE, due);
        if !ok { return; }
      }
      ok := StakeVotes(e, if transfer then receiver else payer, net + cpu);
    }

    /** An inline transfer of the core token. */
    method Send(e: Env, from: Name, to: Name, amount: int) returns (ok: bool)
      modifies token`accounts
      ensures ok == Pay(old(token.Tables()), e, from, to, amount).Commit?
      ensures ok ==> token.Tables() == Pay(old(token.Tables()), e, from, to, amount).value
    {
      ok := token.Transfer(e.accounts, from, to, Token.Asset(amount, Token.CORE), 0);
    }

    /** The common tail of delegatebw and undelegatebw. */
    method Reweigh(account: Name, before: int, now: nat)
      requires account in book.voters
      modifies polls
      ensures State() == Reweighed(old(State()), account, before, now)
    {
      var after := StakeToProposalVotes(book.voters[account].staked);
      var w := after - before;
      if w != 0 {
        polls.UpdateProposalVotes(account, w, now);
        polls.stake := polls.stake + w;
      }
    }

    method WeightOf(account: Name) returns (w: int)
      ensures w == Weight(Polls.StakeOf(book.voters, account))
    {
      w := 0;
      if account in book.voters { w := StakeToProposalVotes(book.voters[account].staked); }
    }

    /** delegatebw. */
    method Delegate(e: Env, from: Name, receiver: Name, net: int, cpu: int, transfer: bool) returns (ok: bool)
      requires CoreSound(State(), e.Now()) && from != NO_NAME && receiver != NO_NAME
      modifies this, token, book, polls
      ensures ok == Staking.Delegate(old(State()), e, from, receiver, net, cpu, transfer).Commit?
      ensures ok ==> State() == Staking.Delegate(old(State()), e, from, receiver, net, cpu, transfer).value
      ensures ok ==> CoreSound(State(), e.Now())
    {
      hide Staking.ChangeBandwidth, Sound, Polls.Sound, Token.Sound, ReceiverSound, GiverSound, Reweighed;
      if cpu < 0 || net < 0 || net + cpu <= 0 { return false; }
      if transfer && from == receiver { return false; }
      ghost var c := State();
      var account := if transfer then receiver else from;
      var before := WeightOf(account);
      ok := ChangeBandwidth(e, from, receiver, net, cpu, transfer);
      if !ok { return; }
      ChangeBandwidthSound(c, e, from, receiver, net, cpu, transfer);
      Reweigh(account, before, e.Now());
      DelegateSound(c, e, from, receiver, net, cpu, transfer);
    }

    /** undelegatebw. */
    method Undelegate(e: Env, from: Name, receiver: Name, net: int, cpu: int) returns (ok: bool)
      requires CoreSound(State(), e.Now()) && from != NO_NAME && receiver != NO_NAME
      modifies this, token, book, polls
      ensures ok == Staking.Undelegate(old(State()), e, from, receiver, net, cpu).Commit?
      ensures ok ==> State() == Staking.Undelegate(old(State()), e, from, receiver, net, cpu).value
      ensures ok ==> CoreSound(State(), e.Now())
    {
      hide Staking.ChangeBandwidth, Sound, Polls.Sound, Token.Sound, ReceiverSound, GiverSound, Reweighed;
      if cpu < 0 || net < 0 || net + cpu <= 0 { return false; }
      if polls.stake < MIN_PROPOSAL_STAKE { return false; }
      ghost var c := State();
      var before := WeightOf(from);
      ok := ChangeBandwidth(e, from, receiver, -net, -cpu, false);
      if !ok { return; }
      ChangeBandwidthSound(c, e, from, receiver, -net, -cpu, false);
      Reweigh(from, before, e.Now());
      UndelegateSound(c, e, from, receiver, net, cpu);
    }

    /** refund. */
    method Refund(e: Env, owner: Name) returns (ok: bool)
      modifies this`refunds, token`accounts
      ensures ok == Staking.Refund(old(State()), e, owner).Commit?
      ensures ok ==> State() == Staking.Refund(old(State()), e, owner).value
    {
      hide Pay;
      if owner !in refunds { return false; }
      if refunds[owner].time + REFUND_DELAY > e.Now() { return false; }
      ok := Send(e, STAKE, owner, refunds[owner].net + refunds[owner].cpu);
      if !ok { return; }
      refunds := refunds - {owner};
    }
  }
}
