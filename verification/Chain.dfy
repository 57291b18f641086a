/** The whole system contract as one state machine: every table, every action, and runs. */
module Chain {
  import opened Base
  import V = Votes
  import Polls
  import Token
  import S = Staking
  import R = RamMarket
  import G = Governance
  import A = Auctions
  import B = Blocks

  datatype State = State(core: S.Core, ram: R.State, gnodes: G.GNodes, producerNum: int, consensus: int,
                         rewards: G.Rewards, bids: A.Bids, clock: B.Clock, accounts: set<Name>, micros: nat)
  {
    function Now(): nat { micros / MICROS_PER_SECOND }
    function Env(scale: real): S.Env { S.Env(accounts, micros, scale) }
    function Governed(): G.Effect { G.Effect(core.book.producers, gnodes, producerNum, consensus) }
    function Blocks(): B.Tables { B.Tables(core.book.producers, rewards, bids, clock) }
    function WithToken(t: Token.State): State { this.(core := core.(token := t)) }
    function WithBook(b: V.Book): State { this.(core := core.(book := b)) }
    function WithProducers(ps: V.Producers): State { WithBook(core.book.(producers := ps)) }
    function WithPolls(p: Polls.Tables): State { this.(core := core.(polls := p)) }
    function WithGoverned(x: G.Effect): State {
      WithProducers(x.producers).(gnodes := x.gnodes, producerNum := x.producerNum, consensus := x.consensus)
    }
    function WithBlocks(t: B.Tables): State {
      WithProducers(t.producers).(rewards := t.rewards, bids := t.bids, clock := t.clock)
    }
  }

  /** The actions. VoteProducer is written in the source but missing from its dispatch list; `first` and
      `id` are what the indexes of the bid and proposal tables answer. */
  datatype Action =
    | TokenAction(action: Token.Action)
    | Delegate(from: Name, receiver: Name, net: int, cpu: int, transfer: bool)
    | Undelegate(from: Name, receiver: Name, net: int, cpu: int)
    | Refund(owner: Name)
    | VoteProducer(voter: Name, proxy: Name, producers: seq<Name>)
    | RegProxy(voter: Name, isProxy: bool)
    | VoteProposal(voter: Name, id: nat, yea: bool)
    | BuyRam(payer: Name, receiver: Name, quant: int)
    | BuyRamBytes(payer: Name, receiver: Name, bytes: nat)
    | SellRam(owner: Name, sold: int)
    | SetRam(maxRam: nat)
    | StakeToGnode(payer: Name, owner: Name, key: nat, url: string, location: nat)
    | UnstakeGnode(owner: Name)
    | UpdateGnode(owner: Name, key: nat, url: string, location: nat)
    | NewProposal(owner: Name, account: Name, height: nat, kind: int, consensus: int, id: nat)
    | ExecProposal(owner: Name, id: nat)
    | RmvProducer(producer: Name)
    | OnBlock(slot: int, producer: Name, first: Name)
    | ClaimRewards(owner: Name)
    | BidName(bidder: Name, name: Name, amount: int)
    | NewAccount(creator: Name, name: Name)

  /** An action with its time, the vote-weight factor at that time and the authorising accounts. */
  datatype Event = Event(micros: nat, scale: real, auths: set<Name>, action: Action)

  /** What makes the recursions of the actions well defined; every reachable state has it. */
  ghost predicate Ready(s: State) { V.Sound(s.core.book) && R.Live(s.ram.market) }

  /** The account that sends the action, if it is one of the users'. */
  function Sender(a: Action): set<Name> {
    match a
    case TokenAction(t) => if t.DoTransfer? then {t.from} else {}
    case Delegate(from, _, _, _, _) => {from}
    case Undelegate(from, _, _, _) => {from}
    case Refund(owner) => {owner}
    case VoteProducer(voter, _, _) => {voter}
    case RegProxy(voter, _) => {voter}
    case VoteProposal(voter, _, _) => {voter}
    case BuyRam(payer, _, _) => {payer}
    case BuyRamBytes(payer, _, _) => {payer}
    case SellRam(owner, _) => {owner}
    case StakeToGnode(payer, _, _, _, _) => {payer}
    case UnstakeGnode(owner) => {owner}
    case UpdateGnode(owner, _, _, _) => {owner}
    case NewProposal(owner, _, _, _, _, _) => {owner}
    case ExecProposal(owner, _) => {owner}
    case ClaimRewards(owner) => {owner}
    case BidName(bidder, _, _) => {bidder}
    case NewAccount(creator, _) => {creator}
    case SetRam(_) => {SYSTEM}
    case RmvProducer(_) => {SYSTEM}
    case OnBlock(_, _, _) => {SYSTEM}
  }

  /** What the chain and the tables' indexes guarantee of an action's arguments: whoever sends it exists, so
      does whoever receives resources, accounts are not the empty name, a voter on proposals has a voter row,
      and index lookups answer correctly. */
  ghost predicate Legal(s: State, a: Action) {
    Sender(a) <= s.accounts &&
    match a
    case Delegate(from, receiver, _, _, _) => from != NO_NAME && receiver != NO_NAME && receiver in s.accounts
    case Undelegate(from, receiver, _, _) => from != NO_NAME && receiver != NO_NAME && receiver in s.accounts
    case RegProxy(voter, _) => voter != NO_NAME
    case VoteProposal(voter, _, _) => voter in s.core.book.voters
    case BuyRam(_, receiver, _) => receiver in s.accounts
    case BuyRamBytes(_, receiver, bytes) => receiver in s.accounts && s.ram.market.base + bytes > 0
    case NewProposal(_, _, _, _, _, id) => G.IsAvailable(s.core.polls.proposals, id)
    case OnBlock(_, _, first) => s.bids != map[] ==> A.IsFirst(s.bids, first)
    case _ => true
  }

  ghost function Apply(s: State, scale: real, auths: set<Name>, a: Action): Outcome<State>
    requires Ready(s) && Legal(s, a)
  {
    var e := s.Env(scale);
    match a
    case TokenAction(act) => var t :- Token.Apply(s.core.token, s.accounts, act); Commit(s.WithToken(t))
    case Delegate(from, receiver, net, cpu, transfer) =>
      var c :- S.Delegate(s.core, e, from, receiver, net, cpu, transfer); Commit(s.(core := c))
    case Undelegate(from, receiver, net, cpu) =>
      var c :- S.Undelegate(s.core, e, from, receiver, net, cpu); Commit(s.(core := c))
    case Refund(owner) => var c :- S.Refund(s.core, e, owner); Commit(s.(core := c))
    case VoteProducer(voter, proxy, producers) =>
      var c :- S.VoteProducer(s.core, e, voter, proxy, producers); Commit(s.(core := c))
    case RegProxy(voter, isProxy) => var b :- V.RegProxy(s.core.book, voter, isProxy, scale); Commit(s.WithBook(b))
    case VoteProposal(voter, id, yea) =>
      var p :- Polls.VoteProposal(s.core.polls, s.core.book.voters, voter, id, yea, s.Now()); Commit(s.WithPolls(p))
    case BuyRam(payer, receiver, quant) =>
      var (c, r) :- R.BuyRam(s.core, s.ram, e, payer, receiver, quant); Commit(s.(core := c, ram := r))
    case BuyRamBytes(payer, receiver, bytes) =>
      var (c, r) :- R.BuyRamBytes(s.core, s.ram, e, payer, receiver, bytes); Commit(s.(core := c, ram := r))
    case SellRam(owner, sold) =>
      var (c, r) :- R.SellRam(s.core, s.ram, e, owner, sold); Commit(s.(core := c, ram := r))
    case SetRam(maxRam) => var r :- R.SetRam(s.ram, maxRam); Commit(s.(ram := r))
    case StakeToGnode(payer, owner, key, url, location) =>
      var (t, g) :- G.StakeToGnode(s.core.token, s.gnodes, e, payer, owner, key, url, location);
      Commit(s.WithToken(t).(gnodes := g))
    case UnstakeGnode(owner) =>
      var (t, g) :- G.UnstakeGnode(s.core.token, s.gnodes, s.core.polls.proposals, e, owner);
      Commit(s.WithToken(t).(gnodes := g))
    case UpdateGnode(owner, key, url, location) =>
      var g :- G.UpdateGnode(s.gnodes, owner, key, url, location); Commit(s.(gnodes := g))
    case NewProposal(owner, account, height, kind, consensus, id) =>
      var (t, p) :- G.NewProposal(s.core.token, s.gnodes, s.core.polls, e, owner, account, height, kind, consensus, id);
      Commit(s.WithToken(t).WithPolls(p))
    case ExecProposal(owner, id) =>
      var (x, p) :- G.ExecProposal(s.Governed(), s.core.polls, e, auths, owner, id);
      Commit(s.WithGoverned(x).WithPolls(p))
    case RmvProducer(producer) =>
      var ps :- G.RmvProducer(s.core.book.producers, producer); Commit(s.WithProducers(ps))
    case OnBlock(slot, producer, first) =>
      Commit(s.WithBlocks(B.OnBlock(s.Blocks(), s.core.polls.stake, s.producerNum, s.core.threshold, s.micros, slot, producer, first)))
    case ClaimRewards(owner) =>
      var (t, ps, w) :- G.ClaimRewards(s.core.token, s.core.book.producers, s.rewards, s.core.polls.stake, e, owner);
      Commit(s.WithToken(t).WithProducers(ps).(rewards := w))
    case BidName(bidder, name, amount) =>
      var (t, bids) :- A.PlaceBid(s.core.token, s.bids, e, bidder, name, amount);
      Commit(s.WithToken(t).(bids := bids))
    case NewAccount(creator, name) =>
      var (l, bids) :- A.NewAccount(s.core.ledger, s.bids, s.accounts, creator, name);
      Commit(s.(core := s.core.(ledger := l), bids := bids, accounts := s.accounts + {name}))
  }

  function At(s: State, micros: nat): State { s.(micros := micros) }

  /** The state after an event: an aborted action only lets the time pass. */
  ghost function After(s: State, ev: Event): State
    requires Ready(At(s, ev.micros)) && Legal(At(s, ev.micros), ev.action)
  {
    var r := Apply(At(s, ev.micros), ev.scale, ev.auths, ev.action);
    if r.Commit? then r.value else At(s, ev.micros)
  }

  /** Time does not run backwards and arguments are legal; from a state that were not ready anything
      could follow. */
  ghost predicate Next(s: State, ev: Event, s': State) {
    && s.micros <= ev.micros && ev.scale >= 0.0
    && Legal(At(s, ev.micros), ev.action)
    && (Ready(At(s, ev.micros)) ==> s' == After(s, ev))
  }

  ghost predicate IsRun(states: seq<State>, events: seq<Event>) {
    && |states| == |events| + 1
    && forall i | 0 <= i < |events| :: Next(states[i], events[i], states[i + 1])
  }
}
