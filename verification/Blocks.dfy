/** onblock: block rewards, the producer schedule and the close of a name auction. */
module Blocks {
  import opened Base
  import opened Votes
  import opened Governance
  import opened GovernanceLaws
  import opened Auctions
  import Schedule

  const MIN_PRODUCER_SIZE := 7
  const BLOCKS_PER_DAY := 2 * 24 * 3600
  const SCHEDULE_SLOTS := 240

  /** last_pervote_bucket_fill, and the slots of last_producer_schedule_update and last_name_close. */
  datatype Clock = Clock(fill: nat, schedule: int, nameClose: int)

  /** What onblock changes. */
  datatype Tables = Tables(producers: Producers, rewards: Rewards, bids: Bids, clock: Clock)

  /** A subtraction of unsigned 32-bit slots. */
  function Minus32(a: int, b: int): int { (a - b) % 0x1_0000_0000 }

  /** Rewards and schedules start once enough stake can vote and enough producers were elected. */
  predicate Activated(stake: int, producerNum: int) { stake >= MIN_PROPOSAL_STAKE && producerNum >= MIN_PRODUCER_SIZE }

  predicate SchedulesAt(c: Clock, slot: int) { Minus32(slot, c.schedule) > SCHEDULE_SLOTS }

  /** onblock; `first` is the first row of the highbid index. */
  ghost function OnBlock(t: Tables, stake: int, producerNum: int, threshold: nat, micros: nat, slot: int,
                         producer: Name,
                         first: Name): Tables
    requires t.bids != map[] ==> IsFirst(t.bids, first)
  {
    if !Activated(stake, producerNum) then t else
      var fill := if t.clock.fill == 0 then micros else t.clock.fill;
      var (producers, rewards) := CountBlock(t.producers, t.rewards, producer);
      if !SchedulesAt(t.clock, slot) then Tables(producers, rewards, t.bids, t.clock.(fill := fill))
      else
        var (bids, closed) :=
          if Minus32(slot, t.clock.nameClose) > BLOCKS_PER_DAY then CloseFirst(t.bids, first, micros, threshold)
          else (t.bids, false);
        Tables(producers, rewards, bids, Clock(fill, slot, if closed then slot else t.clock.nameClose))
  }

  /** Counting a block does not move a producer in the vote index. */
  lemma {:induction false} CountBlockKeepsIndex(idx: seq<Name>, producers: Producers, w: Rewards, producer: Name)
    requires Schedule.IsIndex(idx, producers)
    ensures Schedule.IsIndex(idx, CountBlock(producers, w, producer).0)
  {
    var ps := CountBlock(producers, w, producer).0;
    forall i, j | 0 <= i < j < |idx| ensures Schedule.Before(ps, idx[i], idx[j]) {
      assert idx[i] in idx && idx[j] in idx && Schedule.Before(producers, idx[i], idx[j]);
    }
  }
}
