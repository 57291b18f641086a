/** Staking: delegations, receiver totals, refunds and voting stake, kept in step with the token
    balances and the proposal tallies. */
module Staking {
  import opened Base
  import opened Votes
  import opened VoteWeight
  import Polls
  import Token

  const REFUND_DELAY := 3 * 24 * 3600

  /** delegated_bandwidth. */
  datatype Bandwidth = Bandwidth(net: int, cpu: int)
  /** user_resources. */
  datatype Resources = Resources(net: int, cpu: int, ram: int)
  /** refund_request. */
  datatype RefundRequest = RefundRequest(time: nat, net: int, cpu: int)

  type Delegations = map<(Name, Name), Bandwidth>

  /** The delband tables by (from, to), userres, refunds, and the due times of the deferred refund
      transactions that are scheduled. */
  datatype Ledger = Ledger(delband: Delegations, userres: map<Name, Resources>,
                           refunds: map<Name, RefundRequest>, deferred: map<Name, nat>)

  /** The tables that staking keeps in step; `threshold` is thresh_activated_stake_time. */
  datatype Core = Core(token: Token.State, ledger: Ledger, book: Book, polls: Polls.Tables, threshold: nat)

  /** What an action reads from its environment: the existing accounts, the time in microseconds and
      the vote-weight factor at that time. */
  datatype Env = Env(accounts: set<Name>, micros: nat, scale: real) {
    function Now(): nat { micros / MICROS_PER_SECOND }
  }

  /** An inline transfer of the core token. */
  function Pay(t: Token.State, e: Env, from: Name, to: Name, amount: int): Outcome<Token.State> {
    Token.Transfer(t, e.accounts, from, to, Token.Asset(amount, Token.CORE), 0)
  }

  function Funds(t: Token.State, owner: Name): int { Token.Balance(t, owner, Token.CORE.code) }

  // ---------------------------------------------------------------- changebw, block by block

  function RowOf(delband: Delegations, k: (Name, Name)): Bandwidth {
    if k in delband then delband[k] else Bandwidth(0, 0)
  }

  function ResourcesOf(userres: map<Name, Resources>, r: Name): Resources {
    if r in userres then userres[r] else Resources(0, 0, 0)
  }

  function RefundOf(refunds: map<Name, RefundRequest>, owner: Name): RefundRequest {
    if owner in refunds then refunds[owner] else RefundRequest(0, 0, 0)
  }

  /** The first block: the delegation; an empty row is erased. */
  function MoveDelegation(d: Delegations, k: (Name, Name), net: int, cpu: int): Outcome<Delegations> {
    var row := Bandwidth(RowOf(d, k).net + net, RowOf(d, k).cpu + cpu);
    :- Assert(row.net >= 0, InsufficientNet);
    :- Assert(row.cpu >= 0, InsufficientCpu);
    Commit(if row == Bandwidth(0, 0) then d - {k} else d[k := row])
  }

  /** The second block: the receiver's totals; an empty row is erased. */
  function MoveTotals(userres: map<Name, Resources>, to: Name, net: int, cpu: int): Outcome<map<Name, Resources>> {
    var res := ResourcesOf(userres, to);
    var tot := Resources(res.net + net, res.cpu + cpu, res.ram);
    :- Assert(tot.net >= 0, InsufficientTotalNet);
    :- Assert(tot.cpu >= 0, InsufficientTotalCpu);
    Commit(if tot == Resources(0, 0, 0) then userres - {to} else userres[to := tot])
  }

  function MoveBandwidth(l: Ledger, from: Name, to: Name, net: int, cpu: int): Outcome<Ledger> {
    var delband :- MoveDelegation(l.delband, (from, to), net, cpu);
    var userres :- MoveTotals(l.userres, to, net, cpu);
    Commit(l.(delband := delband, userres := userres))
  }

  /** The third block. Unstaking, or staking to oneself, first runs against the pending refund: each
      resource takes from the refund what it can, and only the rest is due in tokens. */
  function Settle(l: Ledger, from: Name, toSelf: bool, net: int, cpu: int, now: nat): (Ledger, int) {
    if toSelf || net + cpu < 0 then
      var req := RefundOf(l.refunds, from);
      var left := RefundRequest(if net < 0 || cpu < 0 then now else req.time, Max(req.net - net, 0), Max(req.cpu - cpu, 0));
      var due := Max(net - req.net, 0) + Max(cpu - req.cpu, 0);
      if left.net == 0 && left.cpu == 0 then
        (l.(refunds := l.refunds - {from}, deferred := l.deferred - {from}), due)
      else
        (l.(refunds := l.refunds[from := left], deferred := l.deferred[from := now + REFUND_DELAY]), due)
    else
      (l.(deferred := l.deferred - {from}), net + cpu)
  }

  /** The ledger after the first three blocks, and what is due in tokens. */
  function Booked(l: Ledger, payer: Name, receiver: Name, net: int, cpu: int, transfer: bool,
                  now: nat): Outcome<(Ledger, int)> {
    var from := if transfer then receiver else payer;
    var l1 :- MoveBandwidth(l, from, receiver, net, cpu);
    Commit(if payer == STAKE then (l1, 0) else Settle(l1, from, !transfer && from == receiver, net, cpu, now))
  }

  /** validate_b1_vesting, with exact division. */
  function Vested(staked: int, now: nat): bool {
    1_000_000_000_000 - Trunc(1_000_000_000_000 * (now - 1_527_811_200), 10 * 52 * 7 * 24 * 3600) <= staked
  }

  /** The fourth block: the voting stake. */
  function AddStake(b: Book, from: Name, d: int, now: nat): Outcome<Book> {
    var row := if from in b.voters then b.voters[from] else NEW_VOTER;
    :- Assert(0 <= row.staked + d, NegativeStake);
    :- Assert(from == B1 ==> Vested(row.staked + d, now), Vesting);
    Commit(b.(voters := b.voters[from := row.(staked := row.staked + d)]))
  }

  /** The account has a vote to re-apply. */
  predicate HasVote(b: Book, from: Name) {
    from in b.voters && (b.voters[from].producers != [] || b.voters[from].proxy != NO_NAME)
  }

  /** The stored vote is re-applied with the new stake, if there is one. */
  ghost function Revote(b: Book, from: Name, scale: real): Outcome<Book>
    requires Sound(b) && from in b.voters
  {
    if HasVote(b, from) then
      UpdateVotes(b, from, b.voters[from].proxy, b.voters[from].producers, false, scale)
    else
      Commit(b)
  }

  lemma {:induction false} AddStakeSound(b: Book, from: Name, d: int, now: nat)
    requires Sound(b) && from != NO_NAME && AddStake(b, from, d, now).Commit?
    ensures var b' := AddStake(b, from, d, now).value;
      Sound(b') && from in b'.voters && Edges(b'.voters) == Edges(b.voters) + map[from := b'.voters[from].proxy]
  {
    var b' := AddStake(b, from, d, now).value;
    if from in b.voters {
      assert Edges(b'.voters) == Edges(b.voters);
      assert RowSound(b.voters[from]);
      forall v | v in b'.voters ensures RowSound(b'.voters[v]) {
        if v != from { assert RowSound(b.voters[v]); }
      }
    } else {
      AcyclicUnlink(Edges(b.voters), from);
      assert Edges(b'.voters) == Edges(b.voters)[from := NO_NAME];
      forall v | v in b'.voters ensures RowSound(b'.voters[v]) {
        if v != from { assert RowSound(b.voters[v]); }
      }
    }
  }

  /** The last block of changebw. */
  ghost function StakeVotes(b: Book, e: Env, from: Name, d: int): Outcome<Book>
    requires Sound(b) && from != NO_NAME
  {
    var b1 :- AddStake(b, from, d, e.Now());
    AddStakeSound(b, from, d, e.Now());
    Revote(b1, from, e.scale)
  }

  /** changebw. `payer` is the account that authorised the action. */
  ghost function ChangeBandwidth(c: Core, e: Env, payer: Name, receiver: Name, net: int, cpu: int, transfer: bool)
    : Outcome<Core>
    requires Sound(c.book) && payer != NO_NAME && receiver != NO_NAME
  {
    if net == 0 && cpu == 0 then Abort(NothingStaked) else
    :- Assert(Abs(net + cpu) >= Max(Abs(net), Abs(cpu)), OppositeSigns);
    var from := if transfer then receiver else payer;
    var (l, due) :- Booked(c.ledger, payer, receiver, net, cpu, transfer, e.Now());
    var token :- if due > 0 then Pay(c.token, e, payer, STAKE, due) else Commit(c.token);
    var book :- StakeVotes(c.book, e, from, net + cpu);
    var threshold := if HasVote(c.book, from) && c.polls.stake >= MIN_PROPOSAL_STAKE && c.threshold == 0
                     then e.micros else c.threshold;
    Commit(c.(token := token, ledger := l, book := book, threshold := threshold))
  }

  /** voteproducer, which the source does not dispatch; the first vote of an activated chain sets the
      threshold time, as a revote in changebw does. */
  ghost function VoteProducer(c: Core, e: Env, voter: Name, proxy: Name, producers: seq<Name>): Outcome<Core>
    requires Sound(c.book)
  {
    var book :- UpdateVotes(c.book, voter, proxy, producers, true, e.scale);
    Commit(c.(book := book, threshold := if c.polls.stake >= MIN_PROPOSAL_STAKE && c.threshold == 0 then e.micros else c.threshold))
  }

  // ---------------------------------------------------------------- the actions

  /** The proposal weight of `account` moved from `before` to its present value. */
  ghost function Reweighed(c: Core, account: Name, before: int, now: nat): Core {
    c.(polls := Polls.Restake(c.polls, account, Weight(Polls.StakeOf(c.book.voters, account)) - before, now))
  }

  /** delegatebw. */
  ghost function Delegate(c: Core, e: Env, from: Name, receiver: Name, net: int, cpu: int, transfer: bool)
    : Outcome<Core>
    requires Sound(c.book) && from != NO_NAME && receiver != NO_NAME
  {
    if cpu < 0 || net < 0 || net + cpu <= 0 then Abort(NegativeAmount) else
    :- Assert(!transfer || from != receiver, SelfTransferStake);
    var account := if transfer then receiver else from;
    var c1 :- ChangeBandwidth(c, e, from, receiver, net, cpu, transfer);
    Commit(Reweighed(c1, account, Weight(Polls.StakeOf(c.book.voters, account)), e.Now()))
  }

  /** undelegatebw. */
  ghost function Undelegate(c: Core, e: Env, from: Name, receiver: Name, net: int, cpu: int): Outcome<Core>
    requires Sound(c.book) && from != NO_NAME && receiver != NO_NAME
  {
    if cpu < 0 || net < 0 || net + cpu <= 0 then Abort(NegativeAmount) else
    :- Assert(c.polls.stake >= MIN_PROPOSAL_STAKE, NotActivated);
    var c1 :- ChangeBandwidth(c, e, from, receiver, -net, -cpu, false);
    Commit(Reweighed(c1, from, Weight(Polls.StakeOf(c.book.voters, from)), e.Now()))
  }

  /** refund. */
  function Refund(c: Core, e: Env, owner: Name): Outcome<Core> {
    if owner !in c.ledger.refunds then Abort(NoRefund) else
    var req := c.ledger.refunds[owner];
    :- Assert(req.time + REFUND_DELAY <= e.Now(), RefundTooEarly);
    var token :- Pay(c.token, e, STAKE, owner, req.net + req.cpu);
    Commit(c.(token := token, ledger := c.ledger.(refunds := c.ledger.refunds - {owner})))
  }
}
