/** Governance, rewards, auctions and accounts as the system contract performs them: the tables it
    updates in place, over the staking tables and the token it calls. */
module SystemContract {
  import opened Base
  import opened Votes
  import opened VoteWeight
  import Polls
  import opened Staking
  import opened Governance
  import opened Auctions
  import B = Blocks
  import Schedule
  import SL = StakeLedger

  class SystemContract {
    const ledger: SL.StakeLedger
    var gnodes: GNodes
    var producerNum: int
    var consensus: int
    var unpaid: int
    var bucket: int
    var bids: Bids
    var fill: nat
    var scheduleSlot: int
    var nameCloseSlot: int

    constructor (ledger: SL.StakeLedger)
      ensures this.ledger == ledger && gnodes == map[] && bids == map[] && producerNum == unpaid == bucket == 0
      ensures Clock() == B.Clock(0, 0, 0)
    {
      this.ledger := ledger;
      gnodes, bids, producerNum, consensus, unpaid, bucket := map[], map[], 0, 0, 0, 0;
      fill, scheduleSlot, nameCloseSlot := 0, 0, 0;
    }

    ghost function Clock(): B.Clock
      reads this
    {
      B.Clock(fill, scheduleSlot, nameCloseSlot)
    }

    ghost function Governed(): Effect
      reads this, ledger.book
    {
      Effect(ledger.book.producers, gnodes, producerNum, consensus)
    }

    ghost function Blocks(): B.Tables
      reads this, ledger.book
    {
      B.Tables(ledger.book.producers, Rewards(unpaid, bucket), bids, Clock())
    }

    // -------------------------------------------------------------- producers

    /** get_producers_size: the loop over the index, counting in sixteen bits. */
    method GetProducersSize() returns (count: nat)
      ensures count == ProducersSize(ledger.book.producers)
    {
      count := 0;
      var todo := ledger.book.producers.Keys;
      while todo != {}
        invariant todo <= ledger.book.producers.Keys
        invariant count == (|ledger.book.producers| - |todo|) % 0x1_0000
      {
        var p :| p in todo;
        todo := todo - {p};
        count := (count + 1) % 0x1_0000;
      }
    }

    /** add_elected_producers and regproducer. */
    method AddElectedProducer(auths: set<Name>, p: Name) returns (ok: bool)
      modifies ledger.book`producers
      ensures ok == (p in gnodes && RegProducer(old(ledger.book.producers), auths, p, gnodes[p]).Commit?)
      ensures ok ==> ledger.book.producers == RegProducer(old(ledger.book.producers), auths, p, gnodes[p]).value
    {
      if p !in gnodes { return false; }
      var g := gnodes[p];
      if |g.url| >= 512 || g.key == 0 || p !in auths { return false; }
      var book := ledger.book;
      if p in book.producers {
        book.producers := book.producers[p := book.producers[p].(key := g.key, active := true, url := g.url, location := g.location)];
      } else {
        book.producers := book.producers[p := Producer(0.0, g.key, true, g.url, 0, 0, g.location)];
      }
      return true;
    }

    /** remove_elected_producers and unregprod. */
    method RemoveElectedProducer(auths: set<Name>, p: Name) returns (ok: bool)
      modifies ledger.book`producers
      ensures ok == UnregProd(old(ledger.book.producers), auths, p).Commit?
      ensures ok ==> ledger.book.producers == UnregProd(old(ledger.book.producers), auths, p).value
    {
      if p !in auths || p !in ledger.book.producers { return false; }
      var row := ledger.book.producers[p];
      ledger.book.producers := ledger.book.producers[p := row.(key := 0, active := false)];
      return true;
    }

    /** rmvproducer. */
    method RmvProducer(p: Name) returns (ok: bool)
      modifies ledger.book`producers
      ensures ok == Governance.RmvProducer(old(ledger.book.producers), p).Commit?
      ensures ok ==> ledger.book.producers == Governance.RmvProducer(old(ledger.book.producers), p).value
    {
      if p !in ledger.book.producers { return false; }
      var row := ledger.book.producers[p];
      ledger.book.producers := ledger.book.producers[p := row.(key := 0, active := false)];
      return true;
    }

    // -------------------------------------------------------------- proposals

    /** execproposal. */
    method ExecProposal(e: Env, auths: set<Name>, owner: Name, id: nat) returns (ok: bool)
      modifies this`gnodes, this`producerNum, this`consensus, ledger.book`producers, ledger.polls`proposals
      ensures var r := Governance.ExecProposal(old(Governed()), old(ledger.polls.State()), e, auths, owner, id);
        ok == r.Commit? && (ok ==> (Governed(), ledger.polls.State()) == r.value)
    {
      hide RegProducer, UnregProd;
      var polls := ledger.polls;
      if owner !in gnodes || id !in polls.proposals { return false; }
      var p := polls.proposals[id];
      var size := GetProducersSize();
      if size > 7 {
        if e.Now() <= p.voteEnd { return false; }
      }
      if e.Now() >= p.execEnd || p.executed { return false; }
      var passes := p.yeas - p.nays > Trunc(polls.stake, 10);
      if p.kind == 1 && passes {
        polls.proposals := polls.proposals[id := p.(satisfied := true)];
        ok := AddElectedProducer(auths, p.account);
        if !ok { return; }
        producerNum := producerNum + 1;
        gnodes := gnodes[p.account := gnodes[p.account].(isBp := true)];
      }
      if p.kind == 2 && passes {
        polls.proposals := polls.proposals[id := p.(satisfied := true)];
        if p.account !in gnodes { return false; }
        ok := RemoveElectedProducer(auths, p.account);
        if !ok { return; }
        producerNum := producerNum - 1;
        gnodes := gnodes[p.account := gnodes[p.account].(isBp := false)];
      }
      if p.kind == 3 && passes {
        polls.proposals := polls.proposals[id := p.(satisfied := true)];
        consensus := p.consensus;
      }
      polls.proposals := polls.proposals[id :=
        polls.proposals[id].(executed := true, execTime := e.Now(), staked := polls.stake)];
      assert polls.proposals == old(polls.proposals)[id := polls.proposals[id]];
      return true;
    }

    /** newproposal; `id` is the key the table hands out. */
    method NewProposal(e: Env, owner: Name, account: Name, height: nat, kind: int, consensus: int,
                       id: nat) returns (ok: bool)
      requires IsAvailable(ledger.polls.proposals, id)
      modifies ledger.token`accounts, ledger.polls`proposals, ledger.polls`num
      ensures var r := Governance.NewProposal(old(ledger.token.Tables()), gnodes, old(ledger.polls.State()), e, owner, account,
                                              height, kind, consensus, id);
        ok == r.Commit? && (ok ==> (ledger.token.Tables(), ledger.polls.State()) == r.value)
    {
      hide Pay;
      if owner !in gnodes { return false; }
      if kind == 1 {
        if owner != account { return false; }
      }
      if kind == 3 {
        if consensus != 0 && consensus != 1 && consensus != 2 { return false; }
      }
      ok := ledger.Send(e, owner, PROP, PROPOSAL_FEE);
      if !ok { return; }
      var polls := ledger.polls;
      var end := e.Now() + 2 * 3600;
      polls.proposals := polls.proposals[id :=
        Polls.Proposal(owner, account, e.Now(), end, end + 24 * 3600 * 3, 0, height, kind, false, false, consensus, 0, 0, 0)];
      polls.num := polls.num + 1;
    }

    // -------------------------------------------------------------- governance nodes

    /** staketognode. */
    method StakeToGnode(e: Env, payer: Name, owner: Name, key: nat, url: string, location: nat) returns (ok: bool)
      modifies this`gnodes, ledger.token`accounts
      ensures var r := Governance.StakeToGnode(old(ledger.token.Tables()), old(gnodes), e, payer, owner, key, url, location);
        ok == r.Commit? && (ok ==> (ledger.token.Tables(), gnodes) == r.value)
    {
      hide Pay;
      if owner in gnodes { return false; }
      ok := ledger.Send(e, payer, BPSTK, GNODE_FEE);
      if !ok { return; }
      gnodes := gnodes[owner := GNode(payer, GNODE_FEE, e.Now(), false, key, url, location)];
    }

    /** unstakegnode, with its loop over all proposals. */
    method UnstakeGnode(e: Env, owner: Name) returns (ok: bool)
      modifies this`gnodes, ledger.token`accounts
      ensures var r := Governance.UnstakeGnode(old(ledger.token.Tables()), old(gnodes), ledger.polls.proposals, e, owner);
        ok == r.Commit? && (ok ==> (ledger.token.Tables(), gnodes) == r.value)
    {
      hide Pay;
      if owner !in gnodes || gnodes[owner].isBp { return false; }
      var proposals := ledger.polls.proposals;
      var todo := proposals.Keys;
      while todo != {}
        invariant todo <= proposals.Keys
        invariant forall id <- proposals :: id !in todo && Polls.Open(proposals[id], e.Now()) ==>
          proposals[id].owner != owner && proposals[id].account != owner
      {
        var id :| id in todo;
        todo := todo - {id};
        if proposals[id].voteEnd <= e.Now() { continue; }
        if proposals[id].owner == owner || proposals[id].account == owner { return false; }
      }
      var fee, receiver := gnodes[owner].staked, gnodes[owner].payer;
      gnodes := gnodes - {owner};
      ok := ledger.Send(e, BPSTK, receiver, fee);
    }

    /** updategnode. */
    method UpdateGnode(owner: Name, key: nat, url: string, location: nat) returns (ok: bool)
      modifies this`gnodes
      ensures var r := Governance.UpdateGnode(old(gnodes), owner, key, url, location);
        ok == r.Commit? && (ok ==> gnodes == r.value)
    {
      if owner !in gnodes || gnodes[owner].isBp { return false; }
      gnodes := gnodes[owner := gnodes[owner].(key := key, url := url, location := location)];
      return true;
    }

    // -------------------------------------------------------------- rewards and blocks

    /** claimrewards. */
    method ClaimRewards(e: Env, owner: Name) returns (ok: bool)
      modifies this`unpaid, this`bucket, ledger.book`producers, ledger.token`accounts
      ensures var r := Governance.ClaimRewards(old(ledger.token.Tables()), old(ledger.book.producers), Rewards(old(unpaid), old(bucket)),
                                               ledger.polls.stake, e, owner);
        ok == r.Commit? && (ok ==> (ledger.token.Tables(), ledger.book.producers, Rewards(unpaid, bucket)) == r.value)
    {
      hide Pay;
      var book := ledger.book;
      if owner !in book.producers || !book.producers[owner].active { return false; }
      if ledger.polls.stake < MIN_PROPOSAL_STAKE { return false; }
      var prod := book.producers[owner];
      if Minus64(e.micros, prod.lastClaim) <= MICROS_PER_DAY { return false; }
      var pay := 0;
      if unpaid > 0 { pay := REWARD_PER_BLOCK * prod.unpaid; }
      bucket := bucket - pay;
      unpaid := unpaid - prod.unpaid;
      book.producers := book.producers[owner := prod.(lastClaim := e.micros, unpaid := 0)];
      ok := true;
      if pay > 0 { ok := ledger.Send(e, BLKPAY, owner, pay); }
    }

    /** The reward part of onblock. */
    method CountBlock(producer: Name)
      modifies this`unpaid, ledger.book`producers
      ensures (ledger.book.producers, Rewards(unpaid, bucket))
        == Governance.CountBlock(old(ledger.book.producers), Rewards(old(unpaid), bucket), producer)
    {
      var book := ledger.book;
      if producer in book.producers {
        unpaid := unpaid + 1;
        book.producers := book.producers[producer := book.producers[producer].(unpaid := book.producers[producer].unpaid + 1)];
      }
    }

    /** The auction part of onblock. */
    method CloseHighest(micros: nat, slot: int, first: Name)
      requires bids != map[] ==> IsFirst(bids, first)
      modifies this`bids, this`nameCloseSlot
      ensures var (bids', closed) := CloseFirst(old(bids), first, micros, ledger.threshold);
        bids == bids' && nameCloseSlot == if closed then slot else old(nameCloseSlot)
    {
      if bids != map[] && CanClose(bids[first], micros, ledger.threshold) {
        nameCloseSlot := slot;
        bids := bids[first := bids[first].(high := -bids[first].high)];
      }
    }

    /** onblock. `idx` is the vote index and `first` the first row of the highbid index; the schedule
        proposed to the chain is returned. */
    method OnBlock(micros: nat, slot: int, producer: Name, idx: seq<Name>, first: Name)
      returns (proposes: bool, schedule: seq<(Name, nat)>)
      requires Schedule.IsIndex(idx, ledger.book.producers) && (bids != map[] ==> IsFirst(bids, first))
      modifies this`unpaid, this`bids, this`fill, this`scheduleSlot, this`nameCloseSlot, ledger.book`producers
      ensures Blocks() == B.OnBlock(old(Blocks()), ledger.polls.stake, producerNum, ledger.threshold, micros, slot, producer, first)
      ensures proposes == (B.Activated(ledger.polls.stake, producerNum) && B.SchedulesAt(old(Clock()), slot))
      ensures proposes ==>
        && Schedule.Elected(seq(|schedule|, i requires 0 <= i < |schedule| => schedule[i].0), ledger.book.producers, producerNum)
        && forall i | 0 <= i < |schedule| :: schedule[i].0 in ledger.book.producers
             && schedule[i].1 == ledger.book.producers[schedule[i].0].key
    {
      hide Schedule.Elected, Schedule.IsIndex, IsFirst, CloseFirst, Governance.CountBlock;
      proposes, schedule := false, [];
      if ledger.polls.stake < MIN_PROPOSAL_STAKE || producerNum < B.MIN_PRODUCER_SIZE { return; }
      if fill == 0 { fill := micros; }
      B.CountBlockKeepsIndex(idx, ledger.book.producers, Rewards(unpaid, bucket), producer);
      CountBlock(producer);
      if B.Minus32(slot, scheduleSlot) > B.SCHEDULE_SLOTS {
        scheduleSlot := slot;
        schedule := Schedule.UpdateElectedProducers(idx, ledger.book.producers, producerNum);
        proposes := true;
        if B.Minus32(slot, nameCloseSlot) > B.BLOCKS_PER_DAY {
          CloseHighest(micros, slot, first);
        }
      }
    }

    // -------------------------------------------------------------- names

    /** bidname. */
    method BidName(e: Env, bidder: Name, name: Name, amount: int) returns (ok: bool)
      modifies this`bids, ledger.token`accounts
      ensures var r := PlaceBid(old(ledger.token.Tables()), old(bids), e, bidder, name, amount);
        ok == r.Commit? && (ok ==> (ledger.token.Tables(), bids) == r.value)
    {
      hide Pay, Suffix;
      var suffix := NameSuffix(name);
      if suffix != name || name == NO_NAME || name % 16 != 0 || name / 16 % 32 != 0 || name in e.accounts { return false; }
      if amount <= 0 { return false; }
      ok := ledger.Send(e, bidder, NAMES, amount);
      if !ok { return; }
      if name !in bids {
        bids := bids[name := Bid(bidder, amount, e.micros)];
      } else {
        var current := bids[name];
        if current.high <= 0 || amount - current.high <= current.high / 10 || current.bidder == bidder { return false; }
        ok := ledger.Send(e, NAMES, current.bidder, current.high);
        if !ok { return; }
        bids := bids[name := Bid(bidder, amount, e.micros)];
      }
    }

    /** The loop of name_suffix over the first twelve characters, and its test of the thirteenth. */
    method BitsAfterLastDot(n: Name) returns (bits: nat)
      ensures bits == BitsAfterDot(n, 0, 0, 0) && bits <= 59
    {
      hide CharAt;
      bits := 0;
      var tmp := 0;
      for i := 0 to 12
        invariant 0 <= bits <= 59 && 0 <= tmp <= 59
        invariant BitsAfterDot(n, i, tmp, bits) == BitsAfterDot(n, 0, 0, 0)
      {
        if CharAt(n, 59 - 5 * i) == 0 { tmp := 59 - 5 * i; } else { bits := tmp; }
      }
      if n % 16 != 0 { bits := tmp; }
    }

    /** name_suffix: the mask and the shift. */
    method NameSuffix(n: Name) returns (suffix: int)
      ensures suffix == Suffix(n)
    {
      hide BitsAfterDot, Pow2;
      var bits := BitsAfterLastDot(n);
      if bits == 0 { return n; }
      Pow2Positive(bits);
      var masked, thirteenth, shift := n % Pow2(bits) - n % 16, n % 16, 64 - bits;
      suffix := (masked * Pow2(shift) + thirteenth * Pow2(shift - 1)) % TWO64;
    }

    /** The loop of newaccount: shifts the name and looks for an empty character. */
    method FindDot(name: Name) returns (hasDot: bool)
      ensures hasDot == HasDot(name)
    {
      var tmp := name / 16;
      hasDot := false;
      assert Pow2(4) == 16;
      for i := 0 to 12
        invariant Pow2(4 + 5 * i) > 0 && tmp == name / Pow2(4 + 5 * i)
        invariant hasDot == exists j: nat :: j < i && CharAt(name, 4 + 5 * j) == 0
      {
        assert CharAt(name, 4 + 5 * i) == tmp % 32;
        if tmp % 32 == 0 { hasDot := true; }
        ShiftFive(name, 4 + 5 * i);
        tmp := tmp / 32;
      }
    }

    /** newaccount. */
    method NewAccount(accounts: set<Name>, creator: Name, name: Name) returns (ok: bool)
      modifies this`bids, ledger`userres
      ensures var r := Auctions.NewAccount(old(ledger.Tables()), old(bids), accounts, creator, name);
        ok == r.Commit? && (ok ==> (ledger.Tables(), bids) == r.value)
    {
      hide HasDot, Suffix;
      if name in accounts { return false; }
      if creator != SYSTEM {
        var hasDot := FindDot(name);
        if hasDot {
          var suffix := NameSuffix(name);
          if suffix == name {
            if name !in bids || bids[name].bidder != creator || bids[name].high >= 0 { return false; }
            bids := bids - {name};
          } else {
            if creator != suffix { return false; }
          }
        }
      }
      if name in ledger.userres { return false; }
      ledger.userres := ledger.userres[name := Resources(0, 0, 0)];
      return true;
    }
  }

  /** Dropping one more character is one more division by 32. */
  lemma {:induction false} ShiftFive(n: Name, bit: nat)
    ensures Pow2(bit) > 0 && Pow2(bit + 5) > 0 && n / Pow2(bit) / 32 == n / Pow2(bit + 5)
  {
    Pow2Positive(bit);
    Pow2Positive(bit + 5);
    PowFive(bit);
    DivTwice(n, Pow2(bit), 32);
  }

  lemma {:induction false} PowFive(bit: nat)
    ensures Pow2(bit + 5) == 32 * Pow2(bit)
  {
    assert Pow2(bit + 5) == 2 * Pow2(bit + 4) && Pow2(bit + 4) == 2 * Pow2(bit + 3);
    assert Pow2(bit + 3) == 2 * Pow2(bit + 2) && Pow2(bit + 2) == 2 * Pow2(bit + 1);
  }
}
