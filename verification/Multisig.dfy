/** The multisig contract: proposals, approvals and deferred execution. */
module Multisig {
  import opened Base

  /** permission_level. */
  datatype Level = Level(actor: Name, permission: Name)

  /** The header field the contract reads, and the rest of the packed transaction. */
  datatype Transaction = Transaction(expiration: nat, packed: seq<bv8>)

  /** approvals_info. */
  datatype Approvals = Approvals(requested: seq<Level>, provided: seq<Level>)

  /** Proposals are found by proposer and name. */
  type Key = (Name, Name)

  /** A deferred transaction handed to the chain. */
  datatype Deferred = Deferred(id: nat, payer: Name, trx: Transaction)

  datatype State = State(proposals: map<Key, Transaction>, approvals: map<Key, Approvals>, sent: seq<Deferred>)

  /** The chain's answers to check_transaction_authorization at one moment: permissions change, so every
      action meets answers of its own. */
  type Authority = (Transaction, set<Level>) -> bool

  function Levels(s: seq<Level>): set<Level> { set l | l in s }

  /** The first position of a level, or the length. */
  function Find(s: seq<Level>, l: Level): (i: nat)
    ensures i <= |s| && (i < |s| <==> l in s) && (i < |s| ==> s[i] == l)
  {
    if s == [] || s[0] == l then 0 else 1 + Find(s[1..], l)
  }

  function Erase(s: seq<Level>, i: nat): seq<Level>
    requires i < |s|
  {
    s[..i] + s[i + 1..]
  }

  /** The 128-bit sender id: the proposer in the high half, the name in the low half. */
  function SenderId(k: Key): nat { k.0 * 0x1_0000_0000_0000_0000 + k.1 }

  // ---------------------------------------------------------------- actions

  datatype Action =
    | Propose(key: Key, requested: seq<Level>, trx: Transaction)
    | Approve(key: Key, level: Level)
    | Unapprove(key: Key, level: Level)
    | Cancel(key: Key, canceler: Name)
    | Exec(key: Key, executer: Name)

  function Apply(s: State, check: Authority, now: nat, a: Action): Outcome<State> {
    var k := a.key;
    match a
    case Propose(_, requested, trx) =>
      :- Assert(trx.expiration >= now, Expired);
      :- Assert(k !in s.proposals, SameProposal);
      :- Assert(check(trx, Levels(requested)), NotAuthorized);
      :- Assert(k !in s.approvals, RowExists);
      Commit(s.(proposals := s.proposals[k := trx], approvals := s.approvals[k := Approvals(requested, [])]))
    case Approve(_, level) =>
      :- Assert(k in s.approvals, NoSuchProposal);
      var r := s.approvals[k];
      :- Assert(level in r.requested, NotRequested);
      Commit(s.(approvals := s.approvals[k := Approvals(Erase(r.requested, Find(r.requested, level)), r.provided + [level])]))
    case Unapprove(_, level) =>
      :- Assert(k in s.approvals, NoSuchProposal);
      var r := s.approvals[k];
      :- Assert(level in r.provided, NotProvided);
      Commit(s.(approvals := s.approvals[k := Approvals(r.requested + [level], Erase(r.provided, Find(r.provided, level)))]))
    case Cancel(_, canceler) =>
      :- Assert(k in s.proposals, NoSuchProposal);
      :- Assert(canceler == k.0 || s.proposals[k].expiration < now, NotExpired);
      :- Assert(k in s.approvals, NoSuchProposal);
      Commit(s.(proposals := s.proposals - {k}, approvals := s.approvals - {k}))
    case Exec(_, executer) =>
      :- Assert(k in s.proposals && k in s.approvals, NoSuchProposal);
      var trx := s.proposals[k];
      :- Assert(trx.expiration >= now, Expired);
      :- Assert(check(trx, Levels(s.approvals[k].provided)), NotAuthorized);
      Commit(State(s.proposals - {k}, s.approvals - {k}, s.sent + [Deferred(SenderId(k), executer, trx)]))
  }

  // ---------------------------------------------------------------- what every action keeps

  /** The two tables describe the same proposals. */
  ghost predicate Sound(s: State) { s.proposals.Keys == s.approvals.Keys }

  lemma {:induction false} EraseKeepsRest(s: seq<Level>, l: Level)
    requires l in s
    ensures multiset(Erase(s, Find(s, l))) + multiset{l} == multiset(s)
    ensures Levels(Erase(s, Find(s, l))) + {l} == Levels(s)
  {
    var i := Find(s, l);
    assert s == s[..i] + [l] + s[i + 1..];
    assert forall x | x in s :: x == l || x in Erase(s, i);
  }

  lemma {:induction false} ApplySound(s: State, check: Authority, now: nat, a: Action)
    requires Sound(s)
    ensures var r := Apply(s, check, now, a); r.Commit? ==> Sound(r.value)
  {
  }

  /** What an approvals row holds in all, and for how many times each level. */
  ghost function Pooled(r: Approvals): multiset<Level> { multiset(r.requested) + multiset(r.provided) }

  lemma {:induction false} ApproveMoves(s: State, check: Authority, now: nat, a: Action)
    requires a.Approve? && Apply(s, check, now, a).Commit?
    ensures var s' := Apply(s, check, now, a).value;
      && a.key in s.approvals && a.key in s'.approvals
      && Pooled(s'.approvals[a.key]) == Pooled(s.approvals[a.key])
      && multiset(s'.approvals[a.key].provided) == multiset(s.approvals[a.key].provided) + multiset{a.level}
      && Levels(s'.approvals[a.key].requested) + Levels(s'.approvals[a.key].provided)
         == Levels(s.approvals[a.key].requested) + Levels(s.approvals[a.key].provided)
  {
    var r := s.approvals[a.key];
    EraseKeepsRest(r.requested, a.level);
    assert Levels(r.provided + [a.level]) == Levels(r.provided) + {a.level};
  }

  lemma {:induction false} UnapproveMoves(s: State, check: Authority, now: nat, a: Action)
    requires a.Unapprove? && Apply(s, check, now, a).Commit?
    ensures var s' := Apply(s, check, now, a).value;
      && a.key in s.approvals && a.key in s'.approvals
      && Pooled(s'.approvals[a.key]) == Pooled(s.approvals[a.key])
      && multiset(s'.approvals[a.key].provided) + multiset{a.level} == multiset(s.approvals[a.key].provided)
      && Levels(s'.approvals[a.key].requested) + Levels(s'.approvals[a.key].provided)
         == Levels(s.approvals[a.key].requested) + Levels(s.approvals[a.key].provided)
  {
    var r := s.approvals[a.key];
    EraseKeepsRest(r.provided, a.level);
    assert Levels(r.requested + [a.level]) == Levels(r.requested) + {a.level};
  }

  // ---------------------------------------------------------------- execution and cancellation

  /** exec and a stranger's cancel are never both possible; and a pending proposal can be executed exactly
      while it has not expired and the chain's answers of that moment accept the levels given. */
  lemma {:induction false} ExecOrCancel(s: State, check: Authority, now: nat, k: Key, executer: Name, stranger: Name)
    requires Sound(s) && k in s.proposals && stranger != k.0
    ensures Apply(s, check, now, Cancel(k, stranger)).Commit? <==> s.proposals[k].expiration < now
    ensures Apply(s, check, now, Exec(k, executer)).Commit?
      <==> now <= s.proposals[k].expiration && check(s.proposals[k], Levels(s.approvals[k].provided))
  {
    assert k in s.approvals.Keys;
  }

  /** Whatever the two tables hold, as long as they describe the same proposals: no assert of an action can
      fire besides those on expiry, on the chain's answer, on a pending or missing proposal and on a level
      that is not in the list the action takes it from. */
  lemma {:induction false} CommitsIff(s: State, check: Authority, now: nat, a: Action)
    requires Sound(s)
    ensures Apply(s, check, now, a).Commit? <==>
      && (a.Propose? <==> a.key !in s.proposals)
      && (a.Propose? ==> now <= a.trx.expiration && check(a.trx, Levels(a.requested)))
      && (a.Approve? ==> a.level in s.approvals[a.key].requested)
      && (a.Unapprove? ==> a.level in s.approvals[a.key].provided)
      && (a.Cancel? ==> a.canceler == a.key.0 || s.proposals[a.key].expiration < now)
      && (a.Exec? ==> now <= s.proposals[a.key].expiration
                      && check(s.proposals[a.key], Levels(s.approvals[a.key].provided)))
  {
    assert a.key in s.proposals <==> a.key in s.approvals.Keys;
  }

  /** The two halves of a sender id are the proposer and the name. */
  lemma {:induction false} SenderIdHalves(k: Key)
    ensures SenderId(k) / 0x1_0000_0000_0000_0000 == k.0 && SenderId(k) % 0x1_0000_0000_0000_0000 == k.1
  {
    DivUnique(SenderId(k), 0x1_0000_0000_0000_0000, k.0, k.1);
  }

  /** Different proposals never share a deferred sender id. */
  lemma {:induction false} SenderIdInjective(j: Key, k: Key)
    requires SenderId(j) == SenderId(k)
    ensures j == k
  {
    SenderIdHalves(j);
    SenderIdHalves(k);
  }

  // ---------------------------------------------------------------- runs

  /** An action, its time and the chain's answers at that time. */
  datatype Timed = Timed(now: nat, check: Authority, action: Action)

  /** One action on the chain: a failed one changes nothing. */
  function Step(s: State, t: Timed): State {
    var r := Apply(s, t.check, t.now, t.action);
    if r.Commit? then r.value else s
  }

  function Run(s: State, run: seq<Timed>): State
    decreases |run|
  {
    if |run| == 0 then s else Run(Step(s, run[0]), run[1..])
  }

  datatype Event = Proposed(key: Key) | Approved(key: Key, level: Level) | Withdrawn(key: Key, level: Level)
                 | Cancelled(key: Key) | Executed(key: Key)

  predicate Is(a: Action, e: Event) {
    a.key == e.key &&
    match e
    case Proposed(_) => a.Propose?
    case Approved(_, l) => a.Approve? && a.level == l
    case Withdrawn(_, l) => a.Unapprove? && a.level == l
    case Cancelled(_) => a.Cancel?
    case Executed(_) => a.Exec?
  }

  predicate Happens(s: State, t: Timed, e: Event) {
    Apply(s, t.check, t.now, t.action).Commit? && Is(t.action, e)
  }

  /** How often an event happens in a run. */
  function Count(s: State, run: seq<Timed>, e: Event): nat
    decreases |run|
  {
    if |run| == 0 then 0 else
      (if Happens(s, run[0], e) then 1 else 0) + Count(Step(s, run[0]), run[1..], e)
  }

  /** How often a proposal has been handed to the chain. */
  function Dispatched(sent: seq<Deferred>, k: Key): nat {
    if sent == [] then 0 else
      Dispatched(sent[..|sent| - 1], k) + (if sent[|sent| - 1].id == SenderId(k) then 1 else 0)
  }

  function Pending(s: State, k: Key): nat { if k in s.proposals then 1 else 0 }

  lemma {:induction false} RunSound(s: State, run: seq<Timed>)
    requires Sound(s)
    ensures Sound(Run(s, run))
    decreases |run|
  {
    hide Apply, Sound;
    if |run| != 0 {
      ApplySound(s, run[0].check, run[0].now, run[0].action);
      RunSound(Step(s, run[0]), run[1..]);
    }
  }

  /** Over every run: a proposal is executed or cancelled at most once for each time it was proposed, and
      what the chain received of it is exactly its executions. */
  lemma {:induction false} RunExecutesOnce(s: State, run: seq<Timed>, k: Key)
    requires Sound(s)
    ensures Count(s, run, Executed(k)) + Count(s, run, Cancelled(k)) + Pending(Run(s, run), k)
      == Count(s, run, Proposed(k)) + Pending(s, k)
    ensures Dispatched(Run(s, run).sent, k) == Dispatched(s.sent, k) + Count(s, run, Executed(k))
    decreases |run|
  {
    if |run| != 0 {
      StepOnce(s, run[0], k);
      RunExecutesOnce(Step(s, run[0]), run[1..], k);
    }
  }

  function Bit(b: bool): nat { if b then 1 else 0 }

  lemma {:induction false} StepOnce(s: State, t: Timed, k: Key)
    requires Sound(s)
    ensures Sound(Step(s, t))
    ensures Bit(Happens(s, t, Executed(k))) + Bit(Happens(s, t, Cancelled(k))) + Pending(Step(s, t), k)
      == Bit(Happens(s, t, Proposed(k))) + Pending(s, k)
    ensures Dispatched(Step(s, t).sent, k) == Dispatched(s.sent, k) + Bit(Happens(s, t, Executed(k)))
  {
    hide Sound, SenderId;
    ApplySound(s, t.check, t.now, t.action);
    var s' := Step(s, t);
    if s'.sent != s.sent {
      assert s'.sent[..|s'.sent| - 1] == s.sent;
      if SenderId(t.action.key) == SenderId(k) { SenderIdInjective(t.action.key, k); }
    }
  }

  /** The transactions last proposed, after one more action. */
  function Noted(s: State, t: Timed, last: map<Key, Transaction>): map<Key, Transaction> {
    if Happens(s, t, Proposed(t.action.key)) then last[t.action.key := t.action.trx] else last
  }

  /** What a run must hand to the chain, read off its actions alone: every committed exec sends the
      transaction of the last committed propose under its key, paid for by the executer. */
  function Outbox(s: State, run: seq<Timed>, last: map<Key, Transaction>): seq<Deferred>
    decreases |run|
  {
    if |run| == 0 then [] else
      var a := run[0].action;
      (if Happens(s, run[0], Executed(a.key)) && a.key in last
       then [Deferred(SenderId(a.key), a.executer, last[a.key])] else [])
      + Outbox(Step(s, run[0]), run[1..], Noted(s, run[0], last))
  }

  /** The pending proposals are the ones last proposed. */
  ghost predicate Remembers(s: State, last: map<Key, Transaction>) {
    forall k <- s.proposals :: k in last && last[k] == s.proposals[k]
  }

  lemma {:induction false} StepDelivers(s: State, t: Timed, last: map<Key, Transaction>)
    requires Remembers(s, last)
    ensures Remembers(Step(s, t), Noted(s, t, last))
    ensures Happens(s, t, Executed(t.action.key)) ==>
      t.action.key in last
      && Step(s, t).sent == s.sent + [Deferred(SenderId(t.action.key), t.action.executer, last[t.action.key])]
    ensures !Happens(s, t, Executed(t.action.key)) ==> Step(s, t).sent == s.sent
  {
    hide SenderId, Levels, Erase, Find;
  }

  /** Over every run, what the chain receives is exactly that, in that order. */
  lemma {:induction false} RunDelivers(s: State, run: seq<Timed>, last: map<Key, Transaction>)
    requires Remembers(s, last)
    ensures Run(s, run).sent == s.sent + Outbox(s, run, last)
    decreases |run|
  {
    if |run| != 0 {
      hide Remembers, Happens, Step, Noted;
      StepDelivers(s, run[0], last);
      RunDelivers(Step(s, run[0]), run[1..], Noted(s, run[0], last));
    }
  }

  /** Over every run that keeps a proposal pending, the approvals a level has given are those it granted
      less those it withdrew, and what was requested is never lost. */
  lemma {:induction false} RunCounts(s: State, run: seq<Timed>, k: Key, l: Level)
    requires Sound(s) && k in s.proposals
    requires Count(s, run, Executed(k)) + Count(s, run, Cancelled(k)) == 0
    ensures var s' := Run(s, run);
      && k in s.approvals && k in s'.approvals
      && Pooled(s'.approvals[k]) == Pooled(s.approvals[k])
      && multiset(s'.approvals[k].provided)[l] + Count(s, run, Withdrawn(k, l))
         == multiset(s.approvals[k].provided)[l] + Count(s, run, Approved(k, l))
    decreases |run|
  {
    if |run| != 0 {
      StepCounts(s, run[0], k, l);
      RunCounts(Step(s, run[0]), run[1..], k, l);
    }
  }

  /** Only an approval or a withdrawal for a proposal changes its approvals row while it is pending. */
  lemma {:induction false} StepElsewhere(s: State, t: Timed, k: Key)
    requires k in s.proposals && k in s.approvals
    requires !Happens(s, t, Executed(k)) && !Happens(s, t, Cancelled(k))
    ensures var s' := Step(s, t);
      && k in s'.proposals && k in s'.approvals
      && (s'.approvals[k] == s.approvals[k]
          || (Apply(s, t.check, t.now, t.action).Commit? && t.action.key == k && (t.action.Approve? || t.action.Unapprove?)))
  {
  }

  lemma {:induction false} StepCounts(s: State, t: Timed, k: Key, l: Level)
    requires Sound(s) && k in s.proposals
    requires !Happens(s, t, Executed(k)) && !Happens(s, t, Cancelled(k))
    ensures var s' := Step(s, t);
      && Sound(s') && k in s.approvals && k in s'.proposals && k in s'.approvals
      && Pooled(s'.approvals[k]) == Pooled(s.approvals[k])
      && multiset(s'.approvals[k].provided)[l] + Bit(Happens(s, t, Withdrawn(k, l)))
         == multiset(s.approvals[k].provided)[l] + Bit(Happens(s, t, Approved(k, l)))
  {
    ApplySound(s, t.check, t.now, t.action);
    StepElsewhere(s, t, k);
    hide Apply, Levels, Pooled;
    if Apply(s, t.check, t.now, t.action).Commit? && t.action.key == k {
      if t.action.Approve? { ApproveMoves(s, t.check, t.now, t.action); }
      if t.action.Unapprove? { UnapproveMoves(s, t.check, t.now, t.action); }
    }
  }

  /** A level appears in one of the two lists exactly when it is pooled. */
  lemma {:induction false} PooledLevels(r: Approvals)
    ensures Levels(r.requested) + Levels(r.provided) == set l | l in Pooled(r)
  {
  }

  /** The last approval asked for has been given: whatever was approved and withdrawn in between, the
      chain is asked about exactly the levels first requested. If its answer is still the one it gave to
      propose, exec commits until the transaction expires. */
  lemma {:induction false} FullyApproved(s: State, now: nat, check: Authority, k: Key, requested: seq<Level>,
                                         trx: Transaction,
                                         run: seq<Timed>, later: nat, check': Authority, executer: Name)
    requires Sound(s) && Apply(s, check, now, Propose(k, requested, trx)).Commit?
    requires var s1 := Apply(s, check, now, Propose(k, requested, trx)).value;
      && Count(s1, run, Executed(k)) + Count(s1, run, Cancelled(k)) == 0
      && (k in Run(s1, run).approvals ==> Run(s1, run).approvals[k].requested == [])
    ensures var s' := Run(Apply(s, check, now, Propose(k, requested, trx)).value, run);
      && k in s'.approvals && Levels(s'.approvals[k].provided) == Levels(requested)
      && check(trx, Levels(requested))
      && (Apply(s', check', later, Exec(k, executer)).Commit? <==> later <= trx.expiration && check'(trx, Levels(requested)))
  {
    var s1 := Apply(s, check, now, Propose(k, requested, trx)).value;
    ApplySound(s, check, now, Propose(k, requested, trx));
    RunSound(s1, run);
    RunCounts(s1, run, k, Level(0, 0));
    RunKeepsTransaction(s1, run, k);
    var s' := Run(s1, run);
    hide Run, Count, Sound, Apply;
    PooledLevels(s'.approvals[k]);
    PooledLevels(s1.approvals[k]);
    ProposedRow(s, check, now, k, requested, trx);
    NoLevels();
    ExecOrCancel(s', check', later, k, executer, if k.0 == 0 then 1 else 0);
  }

  lemma {:induction false} NoLevels()
    ensures Levels([]) == {}
  {
  }

  lemma {:induction false} ProposedRow(s: State, check: Authority, now: nat, k: Key, requested: seq<Level>,
                                       trx: Transaction)
    requires Apply(s, check, now, Propose(k, requested, trx)).Commit?
    ensures var s1 := Apply(s, check, now, Propose(k, requested, trx)).value;
      k in s1.approvals && k in s1.proposals && s1.approvals[k] == Approvals(requested, []) && s1.proposals[k] == trx
    ensures check(trx, Levels(requested))
  {
  }

  /** While a proposal is pending its transaction stays. */
  lemma {:induction false} RunKeepsTransaction(s: State, run: seq<Timed>, k: Key)
    requires Sound(s) && k in s.proposals
    requires Count(s, run, Executed(k)) + Count(s, run, Cancelled(k)) == 0
    ensures k in Run(s, run).proposals && Run(s, run).proposals[k] == s.proposals[k]
    decreases |run|
  {
    if |run| != 0 {
      ApplySound(s, run[0].check, run[0].now, run[0].action);
      StepKeepsTransaction(s, run[0], k);
      hide Apply, Happens;
      RunKeepsTransaction(Step(s, run[0]), run[1..], k);
    }
  }

  lemma {:induction false} StepKeepsTransaction(s: State, t: Timed, k: Key)
    requires k in s.proposals
    requires !Happens(s, t, Executed(k)) && !Happens(s, t, Cancelled(k))
    ensures var s' := Step(s, t); k in s'.proposals && s'.proposals[k] == s.proposals[k]
  {
  }

  /** Permissions may change while a proposal is pending: account 6 asked for and got the approval of
      account 7, then the chain no longer accepts it. Neither exec nor a stranger's cancel commits. */
  lemma {:induction false} PermissionChanged()
    ensures var k: Key := (6, 8);
      var level, trx := Level(7, 1), Transaction(100, []);
      var before: Authority := (t, levels) => level in levels;
      var after: Authority := (t, levels) => false;
      var run := [Timed(10, before, Propose(k, [level], trx)), Timed(20, before, Approve(k, level))];
      var s := Run(State(map[], map[], []), run);
      && k in s.proposals && k in s.approvals && s.approvals[k].requested == []
      && Apply(s, before, 30, Exec(k, 9)).Commit?
      && Apply(s, after, 30, Exec(k, 9)).Abort? && Apply(s, after, 30, Cancel(k, 9)).Abort?
  {
    var k: Key := (6, 8);
    var level, trx := Level(7, 1), Transaction(100, []);
    var before: Authority := (t, levels) => level in levels;
    var s0 := State(map[], map[], []);
    var s1 := State(map[k := trx], map[k := Approvals([level], [])], []);
    var s2 := State(map[k := trx], map[k := Approvals([], [level])], []);
    var t1, t2 := Timed(10, before, Propose(k, [level], trx)), Timed(20, before, Approve(k, level));
    assert level in Levels([level]);
    assert Step(s0, t1) == s1;
    assert Erase([level], 0) == [] && [] + [level] == [level];
    assert Step(s1, t2) == s2;
    var run := [t1, t2];
    assert run[1..] == [t2] && run[1..][1..] == [];
    assert Run(s0, run) == Run(s1, [t2]) == Run(s2, []) == s2;
  }
}
