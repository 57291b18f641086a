/** The multisig contract as it updates its two tables. */
module MultisigContract {
  import opened Base
  import opened Multisig

  class Contract {
    var proposals: map<Key, Transaction>
    var approvals: map<Key, Approvals>
    /** What send_deferred has received. */
    var sent: seq<Deferred>

    constructor ()
      ensures Contents() == State(map[], map[], []) && Sound(Contents())
    {
      proposals, approvals, sent := map[], map[], [];
    }

    ghost function Contents(): State
      reads this
    {
      State(proposals, approvals, sent)
    }

    method Propose(check: Authority, now: nat, proposer: Name, name: Name, requested: seq<Level>,
                   trx: Transaction) returns (ok: bool)
      modifies this
      ensures var r := Apply(old(Contents()), check, now, Action.Propose((proposer, name), requested, trx));
        ok == r.Commit? && (ok ==> Contents() == r.value)
    {
      if trx.expiration < now { return false; }
      var k := (proposer, name);
      if k in proposals { return false; }
      if !check(trx, Levels(requested)) { return false; }
      proposals := proposals[k := trx];
      if k in approvals { return false; }
      approvals := approvals[k := Approvals(requested, [])];
      return true;
    }

    method Approve(check: Authority, now: nat, proposer: Name, name: Name, level: Level) returns (ok: bool)
      modifies this
      ensures var r := Apply(old(Contents()), check, now, Action.Approve((proposer, name), level));
        ok == r.Commit? && (ok ==> Contents() == r.value)
    {
      var k := (proposer, name);
      if k !in approvals { return false; }
      var apps := approvals[k];
      var itr := Find(apps.requested, level);
      if itr == |apps.requested| { return false; }
      apps := apps.(provided := apps.provided + [level]);
      apps := apps.(requested := Erase(apps.requested, itr));
      approvals := approvals[k := apps];
      return true;
    }

    method Unapprove(check: Authority, now: nat, proposer: Name, name: Name, level: Level) returns (ok: bool)
      modifies this
      ensures var r := Apply(old(Contents()), check, now, Action.Unapprove((proposer, name), level));
        ok == r.Commit? && (ok ==> Contents() == r.value)
    {
      var k := (proposer, name);
      if k !in approvals { return false; }
      var apps := approvals[k];
      var itr := Find(apps.provided, level);
      if itr == |apps.provided| { return false; }
      apps := apps.(requested := apps.requested + [level]);
      apps := apps.(provided := Erase(apps.provided, itr));
      approvals := approvals[k := apps];
      return true;
    }

    method Cancel(check: Authority, now: nat, proposer: Name, name: Name, canceler: Name) returns (ok: bool)
      modifies this
      ensures var r := Apply(old(Contents()), check, now, Action.Cancel((proposer, name), canceler));
        ok == r.Commit? && (ok ==> Contents() == r.value)
    {
      var k := (proposer, name);
      if k !in proposals { return false; }
      if canceler != proposer {
        if proposals[k].expiration >= now { return false; }
      }
      if k !in approvals { return false; }
      proposals := proposals - {k};
      approvals := approvals - {k};
      return true;
    }

    method Exec(check: Authority, now: nat, proposer: Name, name: Name, executer: Name) returns (ok: bool)
      modifies this
      ensures var r := Apply(old(Contents()), check, now, Action.Exec((proposer, name), executer));
        ok == r.Commit? && (ok ==> Contents() == r.value)
    {
      var k := (proposer, name);
      if k !in proposals { return false; }
      if k !in approvals { return false; }
      var trx := proposals[k];
      if trx.expiration < now { return false; }
      if !check(trx, Levels(approvals[k].provided)) { return false; }
      sent := sent + [Deferred(SenderId(k), executer, trx)];
      proposals := proposals - {k};
      approvals := approvals - {k};
      return true;
    }
  }
}
