# A verified model of the DimensionChain contracts

This project models the contracts that run the DimensionChain economy, and the six-bit buffer codec of
its middleware, and proves what they keep over every run.

- **Staking** (`Staking`, `StakingLaws`, `StakingEffects`, `StakeLedger`): delegations, receiver totals, refunds, voting
  stake and token balances change together in `changebw`.
- **Proposal votes** (`VoteWeight`, `Polls`, `PollBook`): cached tallies follow stakes that change under
  open votes.
- **Proxy and producer votes** (`Votes`, `VoteSums`, `VoteExact`, `VoteMeaning`, `BallotEffects`,
  `VoteBook`, `VoteCases`): a recursive walk over a mutable proxy graph keeps incremental sums.
- **RAM market** (`Exchange`, `RamMarket`, `RamLaws`, `RamContract`): a two-leg Bancor conversion with
  integer truncation.
- **Governance, rewards, blocks and name auctions** (`Governance`, `GovernanceLaws`, `GovernanceEffects`,
  `Blocks`, `Schedule`, `Auctions`, `AuctionLaws`, `NameLaws`, `SystemContract`).
- **Token** (`Token`, `TokenContract`) and **multisig** (`Multisig`, `MultisigContract`).
- **Codec** (`Codec`, `CodecBits`, `CodecBuffer`).
- **The whole system** (`Chain`, `ChainLaws`, `ChainSteps`, `ChainAccounts`, `ChainRuns`,
  `ChainJournal`, `ChainPolls`, `ChainHistory`, `ChainVotes`, `ChainMeaning`, `ChainBallots`, `ChainElections`,
  `ChainAuctions`): all tables and all actions as one state machine, with theorems over runs of any length and any interleaving.

Every action has a specification, a function from the old tables to `Commit(new tables)` or
`Abort(reason)`, and a method of a class that updates the tables step by step as the source does and is
proved to compute that function. The laws are proved about the functions. A failed `eosio_assert`
aborts the whole transaction, so the methods promise nothing about their fields when `ok` is false.
Where the source asserts something that can never fail, the laws say so: a commit condition is given as
an if-and-only-if without that assert.

Reading guide: `Base` has names, outcomes and finite sums; a `...Laws` module states what the module of
the same stem keeps, an `...Effects` module what its actions do row by row; `Inv` in `ChainLaws` is the conjunction of
all invariants. Three modules read the tables back from the events of a run: `ChainJournal` has every number as the sum
of what the committed actions enter, `ChainPolls` and `ChainHistory` every row that is overwritten as what the last
committed action on it asked for.

How the model stands for the source:

- Doubles are exact reals. The powers of the market are the integer roots they truncate to, with the
  exponent 2000 kept as a field. The time factor of `stake2vote` is an arbitrary non-negative real
  chosen anew for every action.
- Inline transfers happen within the action, and the action commits only if they do.
- An index is any sequence, or any first row, that satisfies the order of its key.
- Integers are unbounded except where the source relies on a width: token amounts, the unsigned key of
  bids, unsigned times and slots, the sixteen-bit producer count, and all bytes of the codec.

Results where the code and its documentation, or its evident intent, part:

- `buyrambytes` is documented to buy an exact amount. It never does (`RamLaws.BytesNeverExact`, in numbers
  `RamLaws.BytesFallShort`).
- A pending refund is meant to be paid by a scheduled transaction. Staking to somebody else, or being
  given a stake, cancels it (`StakingLaws.RefundScheduledIff`, a run in `StakingLaws.RefundScheduleLost`).
- `voteproducer` is written but not dispatched, so name auctions never close and producers never have
  votes (`ChainVotes.ChainDormant`).
- `producer_num` is not the number of active producers (`ChainElections.ApplyExcess`, a case in
  `ChainElections.RemovedButCounted`).
- Cached vote sums are exact only while the "small changes" test drops nothing that matters
  (`ChainVotes.ApplyExactIff`, a case in `VoteCases.VoteLeftBehind`).
- The comments call a stored list with an unregistered producer data corruption. A vote by an account of
  negative weight stores one, and staking then aborts (`ChainBallots.ApplyListed`, a run in
  `VoteCases.StrandedRun`).
- A fully approved multisig proposal can be neither executed nor cancelled by others when permissions
  change meanwhile (`Multisig.FullyApproved`, a case in `Multisig.PermissionChanged`).

## Model

| member | source | states |
|---|---|---|
| `ChainSteps.ApplyKeeps` | contracts/dimension.system/dimension.system.cpp:189-200 | Every action, from any state that satisfies all invariants together, commits only into such a state; and unless `eonio.stake`, `eonio.ram`, `eonio.bpstk` or `eonio.names` sends the action itself, what that account holds beyond what it owes does not fall |
| `ChainSteps.NextKeeps` | contracts/dimension.system/dimension.system.cpp:189-200 | The same for every legal event, with time passing, whether the action commits or aborts; the recursion of the vote walk is well founded in every reachable state |
| `ChainRuns.GenesisInv` | contracts/dimension.system/dimension.system.cpp:21-41 | The state after the core token is issued and the RAM market opened satisfies every invariant, covers all four pots and, if the named system accounts exist, lacks nobody who may be paid |
| `ChainVotes.GenesisVotes` | contracts/dimension.system/dimension.system.cpp:12-41 | In that state the vote sums are exact and nobody has voted |
| `ChainRuns.RunSound` | contracts/dimension.system/dimension.system.cpp:189-200 | Every state of every run of any interleaving of all actions satisfies every invariant |
| `ChainRuns.RunPresent` | contracts/dimension.system/dimension.system.cpp:177-181 | In every run everybody who may have to be paid, by a refund, a sale, a node stake or a beaten bid, is among the accounts |
| `ChainRuns.RunCovered` | contracts/dimension.system/delegate_bandwidth.cpp:276-356 | In any stretch of a run in which a pot's own account sends nothing, its balance minus everything it owes never decreases (stake and refunds, RAM stake, node stakes, bids) |
| `ChainRuns.RefundsAlwaysPaid` | contracts/dimension.system/delegate_bandwidth.cpp:475-490 | In every run in which `eonio.stake` sends nothing itself, refund commits exactly when a request exists and three days have passed, and it moves the whole request from `eonio.stake` to its owner and nothing else |
| `ChainRuns.RamAlwaysSells` | contracts/dimension.system/delegate_bandwidth.cpp:162-201 | In every run in which `eonio.ram` sends nothing itself, sellram commits exactly when the quota suffices and the price is more than one unit |
| `ChainRuns.RamAlwaysBuys` | contracts/dimension.system/delegate_bandwidth.cpp:105-153 | In every reachable state buyram commits exactly when the payer has what is offered and the market gives at least one byte for it less the fee |
| `ChainRuns.NodesAlwaysLeave` | contracts/dimension.system/producer_pay.cpp:233-258 | In every run in which `eonio.bpstk` sends nothing itself, unstakegnode commits exactly when the node is no producer and no open proposal involves it |
| `ChainRuns.BidsAlwaysRefunded` | contracts/dimension.system/dimension.system.cpp:99-137 | In every run in which `eonio.names` sends nothing itself, bidname commits exactly when the name can be bid on, the bidder can pay, and a standing bid is open, another account's and beaten by more than a tenth: refunding the beaten bid cannot fail |
| `ChainRuns.RunRamMarket` | contracts/dimension.system/delegate_bandwidth.cpp:183-184 | In every reachable state base times quote is at least the opening quote times max_ram_size, quotas add up to what is reserved, the quote is the opening plus total_ram_stake, and the assert that "shouldn't happen" cannot fire |
| `ChainRuns.RunTurnout` | contracts/dimension.system/delegate_bandwidth.cpp:384-441 | In every reachable state the tallies of an open proposal equal a recount from current stakes, and yeas plus nays stay within total_proposal_stake |
| `ChainRuns.RunAcyclic` | contracts/dimension.system/voting.cpp:212-368 | In every reachable state no chain of proxies comes back to where it started |
| `ChainRuns.ExecutedOnce` | contracts/dimension.system/producer_pay.cpp:95-145 | In every run a proposal takes effect at most once |
| `ChainRuns.ProposalWindow` | contracts/dimension.system/producer_pay.cpp:183-190 | In every run, whatever happens in between, a proposal is voted on only in the two hours after it is made, and executed only before three more days are over and, with more than seven producers, only after the two hours |
| `ChainRuns.RunRewards` | contracts/dimension.system/producer_pay.cpp:294-305 | Over every run perblock_bucket is its start minus everything paid, and every counted block is either paid or still in total_unpaid_blocks |
| `ChainJournal.ApplyEnters` | contracts/dimension.system/dimension.system.cpp:189-200 | Every committed action moves every core-token balance, delegation by resource, RAM quota, pending refund by resource and unpaid-block count by exactly the entry that a table of payments and entries, written from the tables before it, gives: who pays whom, to whom a stake or quota goes |
| `ChainJournal.RunEnters` | contracts/dimension.system/dimension.system.cpp:189-200 | Over any stretch of any run each of these numbers moves by exactly the sum of the entries of the committed actions |
| `ChainPolls.RunVotes` | contracts/dimension.system/voting.cpp:128-163 | In every state of every run what is stored of an account's vote on a proposal is the side of its last committed voteproposal on it, since the second it last changed sides |
| `ChainPolls.LastVoteCounts` | contracts/dimension.system/voting.cpp:134-163 | The side stored is the one the last committed vote asked for |
| `ChainPolls.NoVoteUncast` | contracts/dimension.system/voting.cpp:128-163 | Nothing is stored of an account without a committed vote |
| `ChainPolls.RunTally` | contracts/dimension.system/voting.cpp:131-168 | In every reachable state total_yeas and total_nays of an open proposal are the present weights of the accounts whose last committed vote was yes, and no, recounted from the events |
| `ChainPolls.RunFrozen` | contracts/dimension.system/delegate_bandwidth.cpp:388-405 | In every run, once the vote of a proposal is over, nothing moves its tallies |
| `ChainPolls.DecidedAtClose` | contracts/dimension.system/producer_pay.cpp:99 | So its lead at execution is that of the last committed votes, at their weights, in its last open state |
| `ChainPolls.VoteCommits` | contracts/dimension.system/voting.cpp:121-127 | In every reachable state voteproposal commits exactly on an existing proposal before its voting ends |
| `ChainPolls.ExecCommits` | contracts/dimension.system/producer_pay.cpp:82-128 | In every reachable state execproposal commits exactly when a governance node executes an unexecuted proposal in time, after the vote if there are more than seven producers, and a proposal whose lead times ten exceeds the total can be performed |
| `ChainPolls.ExecOutcome` | contracts/dimension.system/producer_pay.cpp:97-143 | In every reachable state an execution whose lead times ten exceeds total_proposal_stake installs the account as producer with its node's key, removes it, or switches the consensus; any other changes no producer, node, producer_num or consensus; both leave only their record |
| `ChainPolls.RunProposed` | contracts/dimension.system/producer_pay.cpp:178-199 | In every run a proposal keeps the owner, account, type, consensus, height and deadlines of the newproposal that made it |
| `ChainAuctions.RunOffers` | contracts/dimension.system/dimension.system.cpp:116-136 | In every state of every run the bid recorded on a name has the sender, amount and time of the last committed bidname on it; a bid no longer recorded was claimed |
| `ChainAuctions.RebidPays` | contracts/dimension.system/dimension.system.cpp:111-135 | An accepted bid takes its amount from its sender, gives the beaten amount back to the sender of the bid it beats, leaves the difference with `eonio.names`, and moves no other balance |
| `ChainAuctions.ClaimedByWinner` | contracts/dimension.system/dimension.system.cpp:162-170 | A name that needs a won auction is created, but for the system account, only by the sender of the last committed bid on it, once closed |
| `ChainHistory.ClosedByBlock` | contracts/dimension.system/producer_pay.cpp:52-63 | In every run an auction is closed only by a block of an activated chain more than two weeks after the first vote, for a bid more than a day old and as high as every other, with no other auction closed |
| `ChainHistory.RunNodes` | contracts/dimension.system/producer_pay.cpp:206-277 | In every state of every run a governance node has the payer, stake and time of its last staketognode and the key, url and location it gave last |
| `ChainHistory.RunWishes` | contracts/dimension.system/voting.cpp:302-335 | In every state of every run a voter's stored proxy and producers are those of its last committed voteproducer, and its flag that of its last committed regproxy |
| `ChainHistory.RunClaims` | contracts/dimension.system/producer_pay.cpp:287-304 | In every state of every run last_claim_time is the time of the producer's last committed claim, never in the future |
| `ChainHistory.ClaimsDaily` | contracts/dimension.system/producer_pay.cpp:280-312 | In every run a claim commits exactly for an active producer of an activated chain more than a day after its last committed claim, if its blocks can be paid for |
| `ChainHistory.RunThreshold` | contracts/dimension.system/voting.cpp:237-239 | In every state of every run thresh_activated_stake_time is the time of the first event that cast or re-applied a vote with enough stake; it is never in the future |
| `ChainHistory.RunAccounts` | contracts/dimension.system/dimension.system.cpp:148-181 | In every run the accounts are those of the start and those a committed newaccount created |
| `ChainElections.ElectedByProposal` | contracts/dimension.system/producer_pay.cpp:97-128 | In every run an account starts or stops being an active producer only when a not yet executed proposal to add, or to remove, it is executed with its authority and ten times its lead of yes votes exceeds total_proposal_stake, or when rmvproducer names it |
| `ChainElections.ApplyExcess` | contracts/dimension.system/producer_pay.cpp:107-123 | producer_num is not in general the number of active producers: an action changes the difference if and only if it is rmvproducer of an active one, a won election of an active one, or a won removal of an inactive one |
| `ChainElections.RunProducerNum` | contracts/dimension.system/producer_pay.cpp:107-123 | In every run without such an action the difference stays what it was at the start |
| `ChainElections.RemovedButCounted` | contracts/dimension.system/dimension.system.cpp:90-97 | A state in which rmvproducer takes the only producer away and producer_num stays one |
| `ChainAuctions.RebidsCompound` | contracts/dimension.system/dimension.system.cpp:116-136 | In every run, from the first bid on a name and until the name is claimed, k accepted rebids give 10^k * high > 11^k * first; a claimed name never comes up again |
| `ChainVotes.ApplyExactIff` | contracts/dimension.system/voting.cpp:212-368 | From exact sums a committed action leaves every total_votes, every proxied_vote_weight and total_producer_vote_weight exact if and only if the changes that the tables before each of its propagations say it drops cancel for every proxy and producer |
| `ChainVotes.RunExact` | contracts/dimension.system/voting.cpp:212-368 | In every run in which no propagation drops a change that would have reached anybody, all these sums equal their recounts in every state |
| `ChainVotes.ChainExact` | contracts/dimension.system/voting.cpp:212-368 | The same from the start of the chain |
| `VoteMeaning.VotesMeaning` | contracts/dimension.system/voting.cpp:212-368 | With exact sums and cast weights up to date, a producer's total_votes is the sum of stake times time factor over exactly the accounts whose chain of registered proxies, of any length, ends at a ballot naming it: every stake counts once |
| `ChainMeaning.RunFresh` | contracts/dimension.system/voting.cpp:337-368 | In every run, while the time factor stays, the weight last cast by everybody who has voted is the present one, whatever propagations drop |
| `ChainMeaning.RunVotesMeaning` | contracts/dimension.system/voting.cpp:212-368 | So in every run at one time factor in which no propagation drops a change that would have reached anybody, every producer's votes have that meaning in every state |
| `ChainMeaning.ChainVotesMeaning` | contracts/dimension.system/voting.cpp:212-368 | The same from the start of the chain |
| `ChainBallots.ApplyListed` | contracts/dimension.system/voting.cpp:275-306 | From registered ballots a committed action leaves registered ballots if and only if it is not a vote by an account of negative weight for an unregistered producer |
| `ChainBallots.RunListed` | contracts/dimension.system/voting.cpp:275-306 | In every run without such a vote all stored ballots stay registered |
| `ChainBallots.RunDelegates` | contracts/dimension.system/delegate_bandwidth.cpp:409-441 | In every such run delegatebw commits exactly when the amounts are valid, what is due can be paid and the vesting rule holds |
| `ChainBallots.RunUndelegates` | contracts/dimension.system/delegate_bandwidth.cpp:443-472 | In every such run undelegatebw commits exactly when the chain is activated, the delegation is large enough and the vesting rule holds |
| `ChainVotes.RunDormant` | contracts/dimension.system/dimension.system.cpp:189-200 | voteproducer is not dispatched: under the dispatched actions alone no producer ever has votes, thresh_activated_stake_time stays zero and no auction ever closes |
| `ChainVotes.ChainDormant` | contracts/dimension.system/dimension.system.cpp:189-200 | The same from the start of the chain |
| `ChainVotes.DormantNames` | contracts/dimension.system/dimension.system.cpp:162-170 | So a top-level name that needs a won auction can be created only by the system account |
| `ChainVotes.DormantSchedule` | contracts/dimension.system/voting.cpp:73-88 | And every schedule takes the active producers first in the alphabet |
| `StakingLaws.MoveIff` | contracts/dimension.system/delegate_bandwidth.cpp:225-274 | With receiver totals equal to the sums of delegations, the two blocks succeed exactly when the single delegation stays non-negative: the asserts on the totals cannot fire |
| `StakingLaws.MoveSound` | contracts/dimension.system/delegate_bandwidth.cpp:225-274 | Both blocks and the voting stake keep every receiver total and every voter stake equal to the sum of the delegations |
| `StakingLaws.SettleSums` | contracts/dimension.system/delegate_bandwidth.cpp:281-351 | The refund block conserves: what leaves the refund plus what is due in tokens is what is staked; no refund amount becomes negative |
| `StakingLaws.BookedConserves` | contracts/dimension.system/delegate_bandwidth.cpp:225-356 | All bookkeeping together raises what the stake account owes by exactly what it is due to receive |
| `StakingLaws.SignTest` | contracts/dimension.system/delegate_bandwidth.cpp:216-218 | The absolute-value test holds exactly when the two deltas do not have opposite signs |
| `StakingLaws.DelegateSound` | contracts/dimension.system/delegate_bandwidth.cpp:409-441 | delegatebw keeps tokens, delegations, totals, refunds, votes and tallies in step, and the stake account covered |
| `StakingLaws.DelegateIff` | contracts/dimension.system/delegate_bandwidth.cpp:409-441 | delegatebw commits exactly when the amounts are valid, what is due after using up the own refund can be paid, the vesting rule holds and the tables say the stored vote can be re-applied; no other assert of changebw or update_votes can fire |
| `StakingLaws.UndelegateSound` | contracts/dimension.system/delegate_bandwidth.cpp:443-472 | undelegatebw keeps all tables in step and the cover of the stake account unchanged |
| `StakingLaws.UndelegateIff` | contracts/dimension.system/delegate_bandwidth.cpp:443-472 | undelegatebw commits exactly when the chain is activated, the delegation is large enough, the vesting rule holds and the tables say the stored vote can be re-applied |
| `StakingLaws.UnstakedWaits` | contracts/dimension.system/delegate_bandwidth.cpp:294-346 | Unstaking adds exactly the amounts to the pending refund, restarts its delay, schedules it, and nothing can be refunded before the delay is over |
| `StakingLaws.RefundSound` | contracts/dimension.system/delegate_bandwidth.cpp:475-490 | refund pays exactly what it stops owing |
| `StakingLaws.RefundIff` | contracts/dimension.system/delegate_bandwidth.cpp:475-490 | While the stake account is covered, refund commits exactly when a request exists and its delay is over |
| `StakingLaws.RefundScheduledIff` | contracts/dimension.system/delegate_bandwidth.cpp:341-349 | A pending refund has a scheduled transaction after changebw exactly when the account staked to itself, unstaked, or had no refund pending |
| `StakingLaws.RefundScheduleLost` | contracts/dimension.system/delegate_bandwidth.cpp:341-349 | A concrete run after which a refund is pending and its scheduled transaction is gone |
| `StakingEffects.SettleRow` | contracts/dimension.system/delegate_bandwidth.cpp:276-351 | The refund block: a stake to oneself takes each resource out of the refund as far as it goes and keeps its time, unstaking adds each resource and restarts the delay, and the deferred transaction is scheduled exactly for a refund that was touched and is left |
| `StakingEffects.DelegateEffect` | contracts/dimension.system/delegate_bandwidth.cpp:409-441 | delegatebw moves one delegation, the totals of its receiver, the stake of the account charged, the payer's refund and the payer's balance, each by the stated amount and no other row |
| `StakingEffects.UndelegateEffect` | contracts/dimension.system/delegate_bandwidth.cpp:443-472 | undelegatebw moves one delegation, the totals of its receiver, the stake and the refund of its sender, and no tokens |
| `StakingEffects.RefundPays` | contracts/dimension.system/delegate_bandwidth.cpp:475-490 | refund removes the request and pays net plus cpu of it from `eonio.stake` to its owner; no other balance moves |
| `StakingEffects.StakingConserves` | contracts/dimension.system/delegate_bandwidth.cpp:211-490 | For every account but `eonio.stake`, balance plus stake plus pending refund is unchanged by delegatebw, undelegatebw and refund, except that a stake given away moves it from payer to receiver |
| `StakingEffects.VestedIff` | contracts/dimension.system/delegate_bandwidth.cpp:203-209 | The vesting rule in whole numbers: period times what is unstaked is at most the total times the seconds elapsed |
| `StakingEffects.VestingEnds` | contracts/dimension.system/delegate_bandwidth.cpp:203-209 | Before the start everything must stay staked, after the period nothing |
| `StakeLedger.StakeLedger.MoveDelegation` | contracts/dimension.system/delegate_bandwidth.cpp:225-248 | The delegation block, in place, commits exactly when its step function does and then leaves exactly the tables that function gives; what that keeps is in `StakingLaws` |
| `StakeLedger.StakeLedger.MoveTotals` | contracts/dimension.system/delegate_bandwidth.cpp:250-274 | The receiver block, in place, commits exactly when its step function does and then leaves exactly the tables that function gives; what that keeps is in `StakingLaws` |
| `StakeLedger.StakeLedger.SettleRefund` | contracts/dimension.system/delegate_bandwidth.cpp:276-351 | The refund block with its nested branches computes, per resource, what is left of the refund and what is due; the two asserts on negative refunds never fire |
| `StakeLedger.StakeLedger.StakeVotes` | contracts/dimension.system/delegate_bandwidth.cpp:358-380 | The voting-power block updates the stake and re-applies the stored vote |
| `StakeLedger.StakeLedger.VoteProducer` | contracts/dimension.system/voting.cpp:207-210 | voteproducer commits exactly when its step function does and then leaves exactly the tables that function gives; what that keeps is in `StakingLaws` |
| `StakeLedger.StakeLedger.ChangeBandwidth` | contracts/dimension.system/delegate_bandwidth.cpp:211-381 | changebw with its inline transfer commits exactly when its step function does and then leaves exactly the tables that function gives; what that keeps is in `StakingLaws` |
| `StakeLedger.StakeLedger.Delegate` | contracts/dimension.system/delegate_bandwidth.cpp:409-441 | delegatebw commits exactly when its step function does and then leaves exactly the tables that function gives, which satisfy all invariants again; what that keeps is in `StakingLaws` |
| `StakeLedger.StakeLedger.Undelegate` | contracts/dimension.system/delegate_bandwidth.cpp:443-472 | undelegatebw commits exactly when its step function does and then leaves exactly the tables that function gives, which satisfy all invariants again; what that keeps is in `StakingLaws` |
| `StakeLedger.StakeLedger.Refund` | contracts/dimension.system/delegate_bandwidth.cpp:475-490 | refund commits exactly when its step function does and then leaves exactly the tables that function gives; what that keeps is in `StakingLaws` |
| `VoteWeight.StakeToProposalVotes` | contracts/dimension.system/voting.cpp:173-181 | The loop returns the weight |
| `VoteWeight.WeightClosedForm` | contracts/dimension.system/voting.cpp:173-181 | With n = staked/100000 the weight is (n minus the digit sum of n)/9 |
| `VoteWeight.WeightIsDocumented` | contracts/dimension.system/voting.cpp:171-172 | The loop agrees with the documented series t/100 + t/1000 + ... |
| `VoteWeight.WeightMonotone` | contracts/dimension.system/voting.cpp:173-181 | More stake never weighs less |
| `VoteWeight.WeightSuperadditive` | contracts/dimension.system/voting.cpp:173-181 | Two stakes together weigh at least as much as apart |
| `VoteWeight.SplittingNeverGains` | contracts/dimension.system/voting.cpp:173-181 | Splitting a stake over any number of accounts never gains votes |
| `Polls.RestakeSound` | contracts/dimension.system/delegate_bandwidth.cpp:435-440 | After any change of a stake the incremental update leaves every open tally and the total equal to a recount |
| `Polls.VoteProposalSound` | contracts/dimension.system/voting.cpp:121-169 | A first vote, a repeated vote and a change of mind keep every open tally equal to a recount |
| `ChainPolls.VoteRecords` | contracts/dimension.system/voting.cpp:121-169 | voteproposal commits exactly on an existing proposal before its voting ends, stores the side asked for, keeps the time of an unchanged side, and touches no other vote |
| `Polls.TurnoutWithinTotal` | contracts/dimension.system/voting.cpp:121-169 | Yeas and nays of an open proposal are non-negative and together at most the total |
| `PollBook.PollBook.UpdateProposalVotes` | contracts/dimension.system/delegate_bandwidth.cpp:384-406 | The loop over the proposals moves exactly the open ones the voter has voted on |
| `PollBook.PollBook.VoteProposal` | contracts/dimension.system/voting.cpp:121-169 | voteproposal commits exactly when its step function does and then leaves exactly the tables that function gives; what that keeps is in `Polls` |
| `Votes.UpdateVotesSound` | contracts/dimension.system/voting.cpp:212-307 | update_votes keeps the proxy graph acyclic and every ballot well formed |
| `Votes.RegProxySound` | contracts/dimension.system/voting.cpp:318-335 | regproxy keeps the proxy graph acyclic |
| `Votes.NoProxyCycle` | contracts/dimension.system/voting.cpp:212-368 | No path along proxies of one link or more comes back to where it started |
| `VoteBook.StoreLater` | contracts/dimension.system/voting.cpp:346-367 | Crediting the proxy first and storing the own weight last, as the source does, comes to the same walk |
| `VoteSums.PropagateProxyGap` | contracts/dimension.system/voting.cpp:337-368 | Along the whole walk every proxied weight keeps its distance from a recount, except for the change dropped at the last voter |
| `VoteSums.PropagateProducerGap` | contracts/dimension.system/voting.cpp:337-368 | The same for every producer's votes |
| `VoteSums.PropagateTotal` | contracts/dimension.system/voting.cpp:353-362 | total_producer_vote_weight moves exactly with the sum of the producers' votes |
| `VoteSums.WalkTrail` | contracts/dimension.system/voting.cpp:337-368 | The walk stops where, drops what and is delivered exactly as a recursion over the tables before it says: each proxy adds its own drift and takes up what arrives, until the change is small or there is no further proxy |
| `VoteSums.PropagateExactIff` | contracts/dimension.system/voting.cpp:344-345 | From an exact book one propagation leaves it exact if and only if the change that this recursion says is dropped is zero or would have reached nobody |
| `VoteSums.PropagateDriftBound` | contracts/dimension.system/voting.cpp:344-345 | A dropped change moves any one sum by at most 1 |
| `VoteExact.NeverClamps` | contracts/dimension.system/voting.cpp:285-300 | From exact sums the clamp at zero never fires, whatever the propagations drop |
| `VoteExact.UpdateVotesExactIff` | contracts/dimension.system/voting.cpp:212-307 | update_votes leaves exact sums exact if and only if, for every proxy and every producer, the changes its two propagations drop on the way to it add up to nothing |
| `VoteExact.UpdateVotesDriftBound` | contracts/dimension.system/voting.cpp:212-307 | From exact sums a whole update_votes moves no sum away from its recount by more than two, and total_producer_vote_weight not at all |
| `VoteExact.UpdateVotesListedIff` | contracts/dimension.system/voting.cpp:275-306 | From registered ballots update_votes leaves registered ballots exactly unless the weight is negative and the new list names an unregistered producer |
| `VoteExact.RegProxyExactIff` | contracts/dimension.system/voting.cpp:318-335 | regproxy leaves exact sums exact if and only if the change it drops is zero or would have reached nobody |
| `VoteExact.RevoteIff` | contracts/dimension.system/delegate_bandwidth.cpp:377-379 | A stored vote can be re-applied exactly when the tables before each of its two propagations say that it arrives at registered producers or is dropped, and the own list is registered or the weight negative |
| `BallotEffects.VoteStored` | contracts/dimension.system/voting.cpp:302-306 | update_votes stores the proxy and producers asked for with the voter's present weight, and nobody else's ballot changes |
| `BallotEffects.VotesNotNegative` | contracts/dimension.system/voting.cpp:284-300 | update_votes never leaves a producer that gains or loses the ballot with negative votes |
| `BallotEffects.FlagStored` | contracts/dimension.system/voting.cpp:318-335 | regproxy stores the flag asked for, and nobody's ballot changes |
| `BallotEffects.StakeKeepsWishes` | contracts/dimension.system/delegate_bandwidth.cpp:358-379 | Staking, which re-applies the stored vote, changes no ballot and no flag |
| `BallotEffects.VoteIff` | contracts/dimension.system/voting.cpp:212-300 | With stored ballots registered, voteproducer commits exactly when the ballot is well formed, the voter has a row, a proxy is registered and not used by a proxy, and, unless the weight is negative, every producer named is active |
| `BallotEffects.FlagIff` | contracts/dimension.system/voting.cpp:318-335 | With stored ballots registered, regproxy commits exactly when the flag changes and no account that uses a proxy becomes one |
| `VoteCases.StrandedRun` | contracts/dimension.system/voting.cpp:276-306 | A run of eleven steps from no voters at all to a stake that aborts over a stored list |
| `VoteCases.VoteLeftBehind` | contracts/dimension.system/voting.cpp:344-345 | A book with exact sums on which regproxy leaves a producer with a vote nobody casts |
| `VoteCases.NegativeVoteUncounted` | contracts/dimension.system/voting.cpp:275-306 | A vote with a negative weight moves a sum away from its recount without any change being dropped |
| `VoteBook.VoteBook.PropagateWeightChange` | contracts/dimension.system/voting.cpp:337-368 | The recursion in the source's order terminates and is the top-down walk |
| `VoteBook.VoteBook.UpdateVotes` | contracts/dimension.system/voting.cpp:212-307 | update_votes with its map of deltas commits exactly when its step function does and then leaves exactly the tables that function gives; what that keeps is in `VoteExact` |
| `VoteBook.VoteBook.RegProxy` | contracts/dimension.system/voting.cpp:318-335 | regproxy commits exactly when its step function does and then leaves exactly the tables that function gives; what that keeps is in `VoteExact` |
| `Exchange.IssuedIff` | contracts/dimension.system/exchange_state.cpp:4-20 | The first leg issues the largest e with (R+e)^n * C <= (C+T) * R^n |
| `Exchange.ReleasedIff` | contracts/dimension.system/exchange_state.cpp:22-46 | The second leg releases the largest t with (C+t) * R^n <= C * (R+E)^n |
| `Exchange.Swap` | contracts/dimension.system/exchange_state.cpp:48-81 | Both legs together leave the relay supply unchanged and pay at most Y*T/(X+T) |
| `Exchange.ConvertIsSwap` | contracts/dimension.system/exchange_state.cpp:48-81 | The recursive conversion between the two connectors is the swap |
| `Exchange.SwapKeepsProduct` | contracts/dimension.system/exchange_state.cpp:4-81 | The product of the two balances never falls |
| `Exchange.SwapAtLeast` | contracts/dimension.system/exchange_state.cpp:4-81 | The payment is at least Y*T/(X+2T), up to the rounding of the two legs |
| `Exchange.RoundTripNeverGains` | contracts/dimension.system/exchange_state.cpp:4-81 | Buying and selling back never returns more than was paid |
| `Exchange.SwapMonotone` | contracts/dimension.system/exchange_state.cpp:4-81 | A larger payment never buys less |
| `RamLaws.OpenedSound` | contracts/dimension.system/dimension.system.cpp:26-37 | The freshly opened market satisfies the RAM invariants |
| `RamLaws.BuyRamSound` | contracts/dimension.system/delegate_bandwidth.cpp:105-153 | buyram keeps quotas, reserved bytes, stake, balances and the product bound in step |
| `RamLaws.BuyRamIff` | contracts/dimension.system/delegate_bandwidth.cpp:105-153 | buyram commits exactly when more than one unit is offered, the payer has it and is neither fee account, and the market gives at least one byte for it less the fee |
| `RamLaws.BuyRamPays` | contracts/dimension.system/delegate_bandwidth.cpp:110-126 | A purchase costs exactly its price: half a percent, rounded up, to the fee account, the rest to the RAM account |
| `RamLaws.FeeIsHalfPercent` | contracts/dimension.system/delegate_bandwidth.cpp:111 | The fee is the smallest whole amount that is at least half a percent |
| `RamLaws.SellNeverOverdraws` | contracts/dimension.system/delegate_bandwidth.cpp:180-184 | A sale within the quota never pays more than the tokens staked |
| `RamLaws.SellRamSound` | contracts/dimension.system/delegate_bandwidth.cpp:162-201 | sellram keeps the same invariants and never aborts with its last assert |
| `RamLaws.SellRamPays` | contracts/dimension.system/delegate_bandwidth.cpp:191-200 | A sale pays the market price less the fee |
| `RamLaws.SellRamIff` | contracts/dimension.system/delegate_bandwidth.cpp:162-201 | While the RAM account is covered, sellram commits exactly when the quota suffices and the price exceeds one unit |
| `RamLaws.SetRamSound` | contracts/dimension.system/dimension.system.cpp:56-76 | setram keeps the RAM invariants |
| `RamLaws.SetRamIff` | contracts/dimension.system/dimension.system.cpp:56-76 | setram commits exactly for a larger size below 2^50, the assert on reserved bytes being unreachable, and only adds the difference to what is for sale |
| `RamLaws.BytesNeverExact` | contracts/dimension.system/delegate_bandwidth.cpp:85-94 | buyrambytes is documented to buy an exact amount; every committed purchase delivers fewer bytes than asked for |
| `RamLaws.BytesFallShort` | contracts/dimension.system/delegate_bandwidth.cpp:85-94 | On the market the contract opens for a thousand million tokens, a purchase of a million bytes commits and delivers more than 994000 but not the million |
| `RamContract.ExchangeState.Convert` | contracts/dimension.system/exchange_state.cpp:48-81 | The recursive conversion over the changed state commits exactly when its step function does and then leaves exactly the tables that function gives; what that keeps is in `RamLaws` |
| `RamContract.RamContract.BuyRam` | contracts/dimension.system/delegate_bandwidth.cpp:105-153 | buyram commits exactly when its step function does and then leaves exactly the tables that function gives; what that keeps is in `RamLaws` |
| `RamContract.RamContract.BuyRamBytes` | contracts/dimension.system/delegate_bandwidth.cpp:88-94 | buyrambytes commits exactly when its step function does and then leaves exactly the tables that function gives; pricing on a copy leaves the market alone; what that keeps is in `RamLaws` |
| `RamContract.RamContract.SellRam` | contracts/dimension.system/delegate_bandwidth.cpp:162-201 | sellram commits exactly when its step function does and then leaves exactly the tables that function gives; what that keeps is in `RamLaws` |
| `RamContract.RamContract.SetRam` | contracts/dimension.system/dimension.system.cpp:56-76 | setram commits exactly when its step function does and then leaves exactly the tables that function gives; what that keeps is in `RamLaws` |
| `GovernanceLaws.StakeToGnodeSound` | contracts/dimension.system/producer_pay.cpp:206-230 | staketognode keeps producers backed, owners present and the node pot covered |
| `GovernanceLaws.UnstakeGnodeSound` | contracts/dimension.system/producer_pay.cpp:233-258 | unstakegnode keeps them too: it removes no backing and no owner of an open proposal |
| `GovernanceLaws.UnstakeGnodeIff` | contracts/dimension.system/producer_pay.cpp:233-258 | While the pot is covered a node can leave exactly when it is no producer and no open proposal involves it |
| `GovernanceLaws.UpdateGnodeSound` | contracts/dimension.system/producer_pay.cpp:261-277 | updategnode cannot break the backing of a producer |
| `GovernanceLaws.NewProposalSound` | contracts/dimension.system/producer_pay.cpp:149-203 | newproposal keeps ids consecutive, tallies sound and the owner a node |
| `GovernanceLaws.ExecProposalSound` | contracts/dimension.system/producer_pay.cpp:82-145 | execproposal keeps every active producer backed by a node with the same key, url and location |
| `GovernanceLaws.PassesIff` | contracts/dimension.system/producer_pay.cpp:99 | The test with its division: for a total that is not negative, ten times the lead exceeds the total |
| `GovernanceLaws.ExecIff` | contracts/dimension.system/producer_pay.cpp:82-128 | execproposal commits exactly under its tests on node, time and execution and, if won, on node, key, url, authority and registration of the account |
| `GovernanceLaws.ExecDecides` | contracts/dimension.system/producer_pay.cpp:95-143 | The whole new state of an execution, won or not |
| `ChainPolls.ProposeIff` | contracts/dimension.system/producer_pay.cpp:149-203 | newproposal commits exactly for a node that can pay, itself to be added or a known consensus; the new row is what was asked for, and only that row is new |
| `GovernanceEffects.StakeToGnodeIff` | contracts/dimension.system/producer_pay.cpp:206-230 | staketognode commits exactly for an account that is no node, if the payer can pay; the row records payer, fee, time, key, url and location |
| `GovernanceEffects.UpdateGnodeIff` | contracts/dimension.system/producer_pay.cpp:261-277 | updategnode commits exactly for a node that is no producer and changes exactly key, url and location |
| `GovernanceEffects.UnstakeGnodeRemoves` | contracts/dimension.system/producer_pay.cpp:233-252 | unstakegnode removes exactly the row of a node that is no producer and in no open proposal |
| `GovernanceEffects.RmvProducerIff` | contracts/dimension.system/dimension.system.cpp:90-97 | rmvproducer commits exactly for a registered producer and makes it inactive without a key |
| `GovernanceEffects.ClaimIff` | contracts/dimension.system/producer_pay.cpp:280-312 | claimrewards commits exactly under its tests and when the pay is there, and resets the producer's own count and time only |
| `GovernanceEffects.BlockEffect` | contracts/dimension.system/producer_pay.cpp:23-68 | onblock counts for its producer only, keeps the three times, and closes the first row of the bid index exactly under its conditions |
| `GovernanceLaws.RmvProducerSound` | contracts/dimension.system/dimension.system.cpp:90-97 | rmvproducer keeps producers backed |
| `GovernanceLaws.CountBlockSound` | contracts/dimension.system/producer_pay.cpp:40-46 | Counting a block keeps total_unpaid_blocks equal to the sum of the producers' counts |
| `GovernanceLaws.PayIsExact` | contracts/dimension.system/producer_pay.cpp:294-300 | The guard on the total never changes the pay, and the total never underflows |
| `GovernanceLaws.ClaimRewardsSound` | contracts/dimension.system/producer_pay.cpp:280-312 | A claim pays exactly the producer's own blocks and lowers the bucket by as much |
| `GovernanceLaws.ClaimsApart` | contracts/dimension.system/producer_pay.cpp:289-291 | A second claim within a day of the first aborts |
| `SystemContract.SystemContract.GetProducersSize` | contracts/dimension.system/producer_pay.cpp:72-80 | The loop counts the producers in sixteen bits |
| `SystemContract.SystemContract.ExecProposal` | contracts/dimension.system/producer_pay.cpp:82-145 | execproposal commits exactly when its step function does and then leaves exactly the tables that function gives; what that keeps is in `GovernanceLaws` |
| `SystemContract.SystemContract.NewProposal` | contracts/dimension.system/producer_pay.cpp:149-203 | newproposal commits exactly when its step function does and then leaves exactly the tables that function gives; what that keeps is in `GovernanceLaws` |
| `SystemContract.SystemContract.StakeToGnode` | contracts/dimension.system/producer_pay.cpp:206-230 | staketognode commits exactly when its step function does and then leaves exactly the tables that function gives; what that keeps is in `GovernanceLaws` |
| `SystemContract.SystemContract.UnstakeGnode` | contracts/dimension.system/producer_pay.cpp:233-258 | unstakegnode with its loop over the proposals commits exactly when its step function does and then leaves exactly the tables that function gives; what that keeps is in `GovernanceLaws` |
| `SystemContract.SystemContract.UpdateGnode` | contracts/dimension.system/producer_pay.cpp:261-277 | updategnode commits exactly when its step function does and then leaves exactly the tables that function gives; what that keeps is in `GovernanceLaws` |
| `SystemContract.SystemContract.ClaimRewards` | contracts/dimension.system/producer_pay.cpp:280-312 | claimrewards commits exactly when its step function does and then leaves exactly the tables that function gives; what that keeps is in `GovernanceLaws` |
| `SystemContract.SystemContract.OnBlock` | contracts/dimension.system/producer_pay.cpp:23-68 | onblock counts the block, closes at most the first auction and moves its slots exactly as its step function does, and proposes an elected schedule exactly when the chain is activated and more than 240 slots have passed; what that keeps is in `GovernanceLaws` |
| `SystemContract.SystemContract.RmvProducer` | contracts/dimension.system/dimension.system.cpp:90-97 | rmvproducer commits exactly when its step function does and then leaves exactly the tables that function gives; what that keeps is in `GovernanceLaws` |
| `SystemContract.SystemContract.AddElectedProducer` | contracts/dimension.system/voting.cpp:104-110 | add_elected_producers and regproducer together commit exactly when their step function does and leave exactly its producers table; what that keeps is in `GovernanceLaws` |
| `SystemContract.SystemContract.RemoveElectedProducer` | contracts/dimension.system/voting.cpp:113-117 | remove_elected_producers and unregprod together commit exactly when their step function does and leave exactly its producers table; what that keeps is in `GovernanceLaws` |
| `SystemContract.SystemContract.BidName` | contracts/dimension.system/dimension.system.cpp:99-137 | bidname with its two inline transfers commits exactly when its step function does and then leaves exactly the tables that function gives; what that keeps is in `AuctionLaws` |
| `SystemContract.SystemContract.FindDot` | contracts/dimension.system/dimension.system.cpp:155-161 | The shifting loop finds a dot, or a short name, exactly when one of the twelve characters is empty |
| `SystemContract.SystemContract.NewAccount` | contracts/dimension.system/dimension.system.cpp:148-184 | newaccount commits exactly when its step function does and then leaves exactly the tables that function gives; what that keeps is in `AuctionLaws` |
| `Schedule.UpdateElectedProducers` | contracts/dimension.system/voting.cpp:73-101 | The schedule is sorted, without repeats, all active, of size min(producer_num, active producers), and leaves out nobody ahead of someone it includes |
| `Schedule.SortByName` | contracts/dimension.system/voting.cpp:87-88 | Sorting yields the same names in increasing order |
| `Schedule.IndexExists` | contracts/dimension.system/dimension.system.hpp:82 | Every producers table has a vote index, so the schedule is always defined |
| `AuctionLaws.KeyOrder` | contracts/dimension.system/dimension.system.hpp:30 | The unsigned key puts closed auctions first and orders open ones by falling bid |
| `AuctionLaws.ClosesOnlyHighest` | contracts/dimension.system/producer_pay.cpp:52-63 | onblock closes only the highest open bid, and only when no closed bid is unclaimed |
| `AuctionLaws.CloseSound` | contracts/dimension.system/producer_pay.cpp:52-63 | A close keeps at most one closed auction and all recorded bids covered |
| `AuctionLaws.FirstExists` | contracts/dimension.system/dimension.system.hpp:33-35 | The bid index of a non-empty table has a first row |
| `AuctionLaws.PlaceBidSound` | contracts/dimension.system/dimension.system.cpp:99-137 | bidname keeps bids valid and the auction account covered, and rebids raise by more than a tenth |
| `AuctionLaws.PlaceBidIff` | contracts/dimension.system/dimension.system.cpp:99-137 | While the auction account is covered, bidname commits exactly under its stated conditions |
| `AuctionLaws.RaisesIff` | contracts/dimension.system/dimension.system.cpp:124 | The rebid test with its division: ten times the new bid exceeds eleven times the old one |
| `AuctionLaws.BidRecorded` | contracts/dimension.system/dimension.system.cpp:116-136 | An accepted bid is recorded with its bidder, amount and time, beats the old one by more than a tenth and leaves every other row |
| `AuctionLaws.NewAccountSound` | contracts/dimension.system/dimension.system.cpp:162-174 | Claiming a name keeps bids valid and the auction account covered |
| `AuctionLaws.NewAccountIff` | contracts/dimension.system/dimension.system.cpp:148-181 | newaccount commits exactly for a new name its creator may create, uses up a won auction, and adds one empty resource row |
| `NameLaws.SuffixMeaning` | contracts/dimensionlib/types.hpp:77-105 | name_suffix of a name without a dot is the name; otherwise its characters are those after the last dot, in order, the thirteenth widened to five bits, and nothing else |
| `NameLaws.TopLevelIff` | contracts/dimensionlib/types.hpp:77-105 | A name is its own suffix exactly when it has no dot that is followed by another character |
| `NameLaws.HasDotIff` | contracts/dimension.system/dimension.system.cpp:155-160 | The loop of newaccount asks whether one of the first twelve characters is empty |
| `NameLaws.BiddableIff` | contracts/dimension.system/dimension.system.cpp:101-105 | bidname accepts exactly unused names of one to eleven characters without such a dot |
| `SystemContract.SystemContract.BitsAfterLastDot` | contracts/dimensionlib/types.hpp:78-94 | The loop over the characters and the test of the thirteenth find the place after the last dot |
| `SystemContract.SystemContract.NameSuffix` | contracts/dimensionlib/types.hpp:77-105 | The mask and the shift give the suffix whose characters NameLaws.SuffixMeaning states |
| `Token.TransferIff` | contracts/dimension.token/dimension.token.cpp:62-116 | transfer commits exactly under its stated conditions: past the balance check no symbol or overflow assert can fire |
| `Token.TransferMoves` | contracts/dimension.token/dimension.token.cpp:62-116 | A transfer moves the amount from one balance to the other and touches nothing else |
| `Token.TransferSound` | contracts/dimension.token/dimension.token.cpp:62-116 | transfer keeps balances positive and summing to the supply |
| `Token.IssueIff` | contracts/dimension.token/dimension.token.cpp:32-60 | issue commits exactly within the maximum supply and credits only the receiver; the detour over the issuer leaves no trace |
| `Token.CreateSound` | contracts/dimension.token/dimension.token.cpp:10-29 | create keeps every token sound |
| `Token.CreateIff` | contracts/dimension.token/dimension.token.cpp:10-29 | create commits exactly for a valid unused symbol and a positive maximum in range, and adds exactly one row with that issuer and maximum and nothing issued |
| `Token.RunSound` | contracts/dimension.token/dimension.token.cpp:10-116 | After every run, with any accounts existing at each action, for every symbol balances are positive and add up to the supply, which is within its maximum |
| `TokenContract.TokenContract.Transfer` | contracts/dimension.token/dimension.token.cpp:62-85 | transfer on the tables commits exactly when its step function does and then leaves exactly the tables that function gives; what that keeps is in `Token` |
| `TokenContract.TokenContract.Issue` | contracts/dimension.token/dimension.token.cpp:32-60 | issue on the tables commits exactly when its step function does and then leaves exactly the tables that function gives; what that keeps is in `Token` |
| `TokenContract.TokenContract.Create` | contracts/dimension.token/dimension.token.cpp:10-29 | create on the tables commits exactly when its step function does and then leaves exactly the tables that function gives; what that keeps is in `Token` |
| `Multisig.RunSound` | contracts/dimension.msig/dimension.msig.cpp:18-132 | Over every run, whatever the chain answers at each action, both tables describe the same proposals |
| `Multisig.RunCounts` | contracts/dimension.msig/dimension.msig.cpp:61-88 | While a proposal is pending, requested plus provided is the multiset first requested, and a level's provided count is its approvals minus its withdrawals |
| `Multisig.RunExecutesOnce` | contracts/dimension.msig/dimension.msig.cpp:90-132 | Over every run executions plus cancellations plus pending equals proposals made, and what the chain receives is exactly the executions |
| `Multisig.RunDelivers` | contracts/dimension.msig/dimension.msig.cpp:49-128 | Over every run what the chain receives is, in order, one entry for each committed exec, with the transaction of the last committed propose under its key and the executer as payer; no other action sends anything |
| `Multisig.CommitsIff` | contracts/dimension.msig/dimension.msig.cpp:18-132 | While both tables agree every action commits exactly under its tests on expiry, authorization, pending proposal and listed level |
| `Multisig.ExecOrCancel` | contracts/dimension.msig/dimension.msig.cpp:90-126 | A stranger can cancel exactly after the expiry, and exec commits exactly before it while the chain at that moment accepts the levels given: never both |
| `Multisig.FullyApproved` | contracts/dimension.msig/dimension.msig.cpp:39-126 | Once everything requested is given, through any approvals and withdrawals in between, exec commits exactly while the transaction has not expired and the chain accepts, at that moment, the levels first requested |
| `Multisig.PermissionChanged` | contracts/dimension.msig/dimension.msig.cpp:42-126 | With a permission changed after the approval neither exec nor a stranger can act |
| `Multisig.SenderIdInjective` | contracts/dimension.msig/dimension.msig.cpp:128 | Different proposals never share a 128-bit sender id |
| `Multisig.SenderIdHalves` | contracts/dimension.msig/dimension.msig.cpp:128 | The high half of the sender id is the proposer, the low half the proposal name |
| `Multisig.Find` | contracts/dimension.msig/dimension.msig.cpp:67 | The found position holds the level, and exists exactly when the level is listed |
| `MultisigContract.Contract.Propose` | contracts/dimension.msig/dimension.msig.cpp:18-59 | propose commits exactly when its step function does and then leaves exactly the tables that function gives; what that keeps is in `Multisig` |
| `MultisigContract.Contract.Approve` | contracts/dimension.msig/dimension.msig.cpp:61-74 | approve commits exactly when its step function does and then leaves exactly the tables that function gives; what that keeps is in `Multisig` |
| `MultisigContract.Contract.Unapprove` | contracts/dimension.msig/dimension.msig.cpp:76-88 | unapprove commits exactly when its step function does and then leaves exactly the tables that function gives; what that keeps is in `Multisig` |
| `MultisigContract.Contract.Cancel` | contracts/dimension.msig/dimension.msig.cpp:90-105 | cancel commits exactly when its step function does and then leaves exactly the tables that function gives; what that keeps is in `Multisig` |
| `MultisigContract.Contract.Exec` | contracts/dimension.msig/dimension.msig.cpp:107-132 | exec commits exactly when its step function does and then leaves exactly the tables that function gives; what that keeps is in `Multisig` |
| `Codec.EncodedLength` | middleware/test.cpp:29-67 | n bytes encode to exactly ceil(4n/3) characters |
| `Codec.EncodedPrintable` | middleware/test.cpp:45-62 | Every character is in 0x3c..0x7b |
| `Codec.RoundTrip` | middleware/test.cpp:29-112 | Decoding the encoding returns the bytes |
| `Codec.EncodedInjective` | middleware/test.cpp:29-67 | Different byte strings have different encodings |
| `CodecBits.EncodedBits` | middleware/test.cpp:29-67 | The text, read six bits a character from 0x3c, holds the bits of the bytes in order, filled up with zeros to whole characters |
| `CodecBits.DecodedBits` | middleware/test.cpp:69-112 | The bytes decoded from any text, canonical or not, are as many as its bits fill and hold those bits in order |
| `CodecBuffer.Encode` | middleware/test.cpp:29-67 | The loop with its carry bits writes the encoding of the bytes it takes in, for any room stated: everything when that suffices, else exactly the stated number of characters or one more |
| `CodecBuffer.MemLen` | middleware/test.cpp:16-23 | One more than the position of the first zero byte |
| `CodecBuffer.Decode` | middleware/test.cpp:69-112 | The loop writes the decoding up to the capacity; a character below the code range empties the result unless the destination was full before it |
| `CodecBuffer.EncodeThenDecode` | middleware/test.cpp:29-112 | Encoding a buffer, terminating it with zero and decoding it gives back the bytes |

## Left out

- IEEE rounding of doubles and of `std::pow`, and overflow of 64-bit amounts outside the token contract.
- PollBook.PollBook.VoteProposal: an account without a voter row is excluded, because the source reads that row unchecked.
- CodecBuffer.Encode: takes memory for the characters it writes, which can be one more than the room its caller states; the source checks only the latter.
- CodecBuffer.Decode: takes a source buffer that holds a zero byte, which the source does not check.
- RamContract.ExchangeState.Convert: selling the whole relay supply or more is excluded, because no action sells relay tokens and the source would divide by zero or less.
- Authority, except where `regproducer` and `unregprod` ask for it inside `execproposal`.
- RAM payers, resource limits, notifications and the chain's answer to a proposed schedule, including `last_producer_schedule_size`.
- The deferred transactions themselves: only their due times and what multisig sends are recorded; when the chain executes them is left open.
- `validate_b1_vesting` with exact division instead of a double.
- `setparams`, `setpriv`, the native account actions, and the bios, sudo and asserter contracts: thin calls into the chain.
- The chain itself: controller, fork database, serialisation and their tests.
