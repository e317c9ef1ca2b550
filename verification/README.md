# Keeper network: governance, indexing and reputation, verified

A Dafny model of the parts of the Soroban keeper network whose correctness is about whole runs rather
than single calls.

- **Governance.** The KPRS token (live balances, per-account checkpoint lists, a cliff-plus-linear
  vesting lock, expiring allowances) and the governance contract that weighs votes by the token's
  historical balances. A run is any sequence of token calls, governance calls and clock advances.
  A call that returns an error or traps changes nothing, because the host reverts it. The ledger
  sequence and the timestamp move forward independently. Authorization is a precondition of the host.
  A run starts from a token just initialized with four different holders; what happens when they are
  not different is `TokenRuns.DistributionExact`.
- **Ingestion.** The indexer's walk over ledgers is a machine that can stop between any two durable
  writes, resume from the database, or have its checkpoint moved back. It is run against an honest
  source (a page is exactly a ledger range of one log) and against a source that may answer anything.
  The log as a reader sees it is the cursor-paged event feed; the SDK's own reader is the polling
  stream with a durable cursor.
- **Registry administration.** Every admin entry point of the registry with the event it emits, and
  the indexer's fold of those events, up to the end-to-end statement that an indexer at the tip shows
  the contract's own configuration.
- **Cache and reputation.** The TTL cache under any interleaving of its atomic steps, and the keeper
  score with its saturating counts and read-time decay.

Code that updates storage in place is a class here (`GovernanceToken`, `Governance`, `Backfiller`,
`RegistryEventStream`, `KeeperRegistry`, `TtlCache`, `KeeperReputation`). Each method is proved against
a function on values that gives its outcome and the whole new state; storing in the cache is given which
of several equally old entries the hash map yields. The theorems are about those functions over all runs,
and `ContractRuns` drives the contract objects through such runs. Both governance source
files hold fragments of several versions; the version modelled is the one their sibling test files use.

## Promises that do not hold as written

| promise | where it fails | exact condition |
|---|---|---|
| transfers conserve the supply | `TokenRuns.SelfTransferCreates`: both balances are read before either is written | `TokenRuns.ConservedIffNoSelfTransfers` |
| the snapshot stops tokens from being counted twice | `VotingRuns.EarlyVotesCanExceedSupply`: votes cast inside the creation ledger see balances that still move | `SnapshotBound.BoundHoldsIffLedgerPassed` |
| the allocations add up to the supply | a holder named twice keeps only the last allocation | `TokenRuns.DistributionExact` |
| a fingerprint does not depend on source order | two different events of a ledger with one key | `Fingerprints.OrderIrrelevantIffUnambiguous` |
| a ledger that reads differently is refused | `IndexerBackfill.EmptiedLedgerIsNotNoticed`: a ledger whose every event is gone is not looked up | `IndexerBackfill.RefusedIffContradicted` |
| every pass reaches the tip | `IndexerBackfill.MaximumTipIsNeverReached`: a tip at the last 32-bit ledger, whatever and however long the source answers | `IndexerBackfill.PassEndsIffTipBelowMaximum` |
| following the feed's cursors reads everything | a page limit of zero | `EventFeed.TraversalIsExact` |

## Model

| member | source | states |
|---|---|---|
| `VotingRuns.VotesNeverExceedSupply` | contracts/governance/src/lib.rs:495-581 | over every interleaving of token and governance calls, a proposal with no vote inside its creation ledger never gathers more than the total supply |
| `VotingRuns.VotesWithinSupplyOverRun` | contracts/governance/src/lib.rs:495-581 | the same bound without any condition on transfers: supply plus what self-transfers created minus what was burned by the creation ledger |
| `VotingRuns.LateVotesWeighTheSnapshot` | contracts/governance/src/lib.rs:495-581 | every vote cast after the creation ledger weighs what the voter held when that ledger closed, whatever moves during voting |
| `VotingRuns.SnapshotTurnoutWithinSupply` | contracts/governance-token/src/lib.rs:532-571 | distinct voters' snapshot weights sum to no more than the sum of all balances at the snapshot |
| `SnapshotBound.BoundHoldsIffLedgerPassed` | contracts/governance/src/lib.rs:495-581 | after an accepted vote with no early vote before it, every continuation without early votes and self-transfers keeps the votes within the supply at the creation ledger if and only if that ledger had passed when the vote was cast |
| `SnapshotBound.BurnEverything` | contracts/governance-token/src/lib.rs:438-464 | once everything has vested, holders burning in turn bring the supply at the open ledger to zero |
| `VotingRuns.WeightIsFinalIffLedgerPassed` | contracts/governance/src/lib.rs:495-581 | the balance a vote weighs is the same in every continuation if and only if the creation ledger had passed when it was cast |
| `VotingRuns.EarlyVotesCanExceedSupply` | contracts/governance/src/lib.rs:495-581 | vote, transfer and second vote in the creation ledger: turnout is five million tokens over the supply |
| `VotingRuns.OnlyVotesChangeBallots` | contracts/governance/src/lib.rs:495-869 | no entry point but voting writes a ballot, and a proposal starts with an empty one |
| `VotingRuns.TalliesAndParameters` | contracts/governance/src/lib.rs:622-682 | in every reachable state each tally is the sum of the recorded weights for its choice, parameters are in range, and a won proposal has more for than against and at least one percent turnout |
| `VotingRuns.OneVoteEach` | contracts/governance/src/lib.rs:507-559 | a recorded vote never changes in any run and its voter can never vote on that proposal again |
| `VotingRuns.ClosedProposalsAreFixed` | contracts/governance/src/lib.rs:622-682 | once a proposal has left Active its tallies and ballot are final, its status only moves forward, and a queued execution time is final |
| `TimelockRuns.ExecutedAfterTimelock` | contracts/governance/src/lib.rs:748-809 | an executed proposal was Active, Passed, Queued, Executed in that order, ran at or after its execution time and at least 28,801 ledgers after creation, whatever other proposals changed meanwhile |
| `TimelockRuns.TimelineFits` | contracts/governance/src/lib.rs:318-869 | the full history of statuses written for any proposal in any run is, in order of time, the one order that leads to its current status, with the waits between them, cancelled proposals included |
| `TimelockRuns.VotingEndsInTime` | contracts/governance/src/lib.rs:351-357 | a decided proposal had its whole minimum voting period although the end saturates at the last ledger |
| `TimelockRuns.ViewsAgree` | contracts/governance/src/lib.rs:872-945 | the status view equals what evaluation would write, and the executable and remaining-delay views say exactly whether execution succeeds |
| `GovernanceRules.GovCallSound` | contracts/governance/src/lib.rs:495-1130 | every governance call keeps parameters in range, ids in order, tallies equal to ballots and the conditions of each status |
| `GovernanceRules.GovCallEvolves` | contracts/governance/src/lib.rs:495-869 | one call moves proposals only forward, keeps identity and deadline, and touches no closed ballot |
| `GovernanceRules.ChangesAreAuthorised` | contracts/governance/src/lib.rs:318-869 | a proposal appears only by a holder of the threshold with a valid action, is cancelled only by proposer or admin, and parameters change only by executing a queued proposal whose time has come |
| `GovernanceRules.ApplyActionSound` | contracts/governance/src/lib.rs:773-787 | applying an action at execution keeps parameters in range although it was validated at creation |
| `GovernanceRules.QuorumAtLeastOnePercent` | contracts/governance/src/lib.rs:964-968 | with parameters in range the quorum threshold is at least one percent of the supply |
| `GovernanceRules.VoteKeepsTallies` | contracts/governance/src/lib.rs:527-559 | recording a new voter's weight keeps every tally equal to its sum of weights |
| `GovernanceHistory.BallotsAreWhatWasCast` | contracts/governance/src/lib.rs:507-559 | in every run the ballot holds, for each voter, the choice of their accepted call with their balance as of the creation ledger, and each tally is the sum of the weights cast for it |
| `GovernanceHistory.SettingsAreTheLastAmendments` | contracts/governance/src/lib.rs:773-787 | in every run each setting is what the last amendment of it, executed when due, asked for, or the default |
| `GovernanceEffects.VoteCounts` | contracts/governance/src/lib.rs:495-581 | a vote is accepted if and only if initialized, Active, in time, first, of positive weight and fitting; the tally of the named choice grows by that weight, the record says so, and nothing else changes |
| `GovernanceEffects.EvaluateDecides` | contracts/governance/src/lib.rs:622-682 | an Active proposal past its deadline passes if and only if ten thousand times one vote more than the turnout exceeds supply times quorum and more are for than against; abstentions count for the quorum only |
| `GovernanceEffects.QuorumIsRoundedDown` | contracts/governance/src/lib.rs:964-968 | turnout meets the quorum if and only if one vote more would exceed the exact share of the supply |
| `GovernanceEffects.QueueSchedules` | contracts/governance/src/lib.rs:687-745 | a proposal that has carried is scheduled for exactly the delay from now; queueing again answers the time it has; everything else is refused unchanged |
| `GovernanceEffects.ExecuteAmends` | contracts/governance/src/lib.rs:748-809 | execution succeeds if and only if queued and due, and sets exactly the setting its action names to the value it names |
| `GovernanceEffects.ProposalOpens` | contracts/governance/src/lib.rs:318-366 | opened if and only if the proposer holds the threshold and the action is valid; next id, no votes, deadline one voting period away or at the last ledger |
| `GovernanceEffects.CancelWithdraws` | contracts/governance/src/lib.rs:819-869 | cancelled if and only if the caller is the proposer or the admin and the proposal neither executed nor cancelled |
| `GovernanceEffects.InitializationSets` | contracts/governance/src/lib.rs:211-241 | succeeds once, names the admin and stores the documented defaults |
| `GovernanceEffects.StatusViewIsExact` | contracts/governance/src/lib.rs:922-945 | the computed status for every stored status, deadline and tally |
| `GovernanceEffects.RemainingDelayIsExact` | contracts/governance/src/lib.rs:872-885 | a queued proposal's remaining delay is the ledgers left until its execution time, or zero |
| `GovernanceEffects.ValidIffKeepsRanges` | contracts/governance/src/lib.rs:1071-1130 | a self-amendment is valid if and only if applying it keeps the parameters in range |
| `GovernanceEffects.ValidIffRegistryAccepts` | contracts/governance/src/lib.rs:1071-1130 | a proposal on a registry setting is valid if and only if the registry would take the value from its admin |
| `GovernanceEffects.ValidTreasuryActions` | contracts/governance/src/lib.rs:1071-1130 | treasury shares are one to ten thousand basis points; the remaining actions are always valid |
| `Protocol.ReachableSound` | contracts/governance/src/lib.rs:211-869 | every state reachable by any run satisfies the token and governance invariants together |
| `TokenRuns.HistoricalConservation` | contracts/governance-token/src/lib.rs:286-464 | at every ledger from launch on, all balances at that ledger plus everything burned by then equal the total supply |
| `TokenRuns.SupplyOverRun` | contracts/governance-token/src/lib.rs:286-513 | the supply at every ledger of every run, self-transfers included |
| `TokenRuns.ConservedIffNoSelfTransfers` | contracts/governance-token/src/lib.rs:295-308 | conservation holds of a run if and only if no call meets, beforehand, the guards of moving a positive amount from an account to itself |
| `TokenRuns.PaysItselfMeans` | contracts/governance-token/src/lib.rs:295-308 | in a sound state those guards (unlocked balance, fitting sum, allowance) say exactly which self-transfers succeed |
| `TokenRuns.SelfTransferCreates` | contracts/governance-token/src/lib.rs:301-308 | moving one token to oneself right after launch raises the supply by one token |
| `TokenRuns.DistributionExact` | contracts/governance-token/src/lib.rs:107-165 | the initial allocations add up to the supply if and only if the four holders differ |
| `TokenRuns.BalanceAtIsEndOfLedger` | contracts/governance-token/src/lib.rs:532-571 | a historical balance is the balance that was live in the run's last state at or before that ledger |
| `TokenRuns.ClosedLedgersNeverChange` | contracts/governance-token/src/lib.rs:579-636 | once the sequence has passed a ledger, no run changes any balance at it |
| `TokenRuns.CheckpointsStrictlyIncrease` | contracts/governance-token/src/lib.rs:579-636 | in every reachable state each checkpoint list has strictly increasing ledgers, which is what the bisection needs |
| `TokenRuns.NoCallTraps` | contracts/governance-token/src/lib.rs:286-513 | without self-transfers no call of any run traps: additions fit, vesting arithmetic fits, and the allowance entry is there when unwrapped |
| `TokenRuns.BalancesFallOnlyByRight` | contracts/governance-token/src/lib.rs:286-513 | in a sound state a balance falls only by its owner's transfer or burn or by a spender within an unexpired allowance, and by exactly that amount |
| `TokenRuns.VestingLock` | contracts/governance-token/src/lib.rs:242-278 | now and at every later time the team holds at least its unvested amount, and everyone's balance is spendable plus unvested |
| `TokenRuns.AllowanceIsApprovedMinusSpent` | contracts/governance-token/src/lib.rs:188-233 | after any run the stored allowance is the last approval minus what was drawn since, and draws never exceed it |
| `TokenRuns.DrawsRespectTheGrant` | contracts/governance-token/src/lib.rs:400-429 | whatever comes next in a run draws no more than is left and nothing after the expiration ledger |
| `TokenHistory.VestedMonotone` | contracts/governance-token/src/lib.rs:253-268 | across cliff, linear stretch and end the vested amount never falls and stays between zero and the total |
| `TokenEffects.VestedExactly` | contracts/governance-token/src/lib.rs:253-268 | nothing vests before the cliff, all from the end on, and in between the elapsed share of the total rounded down |
| `TokenEffects.SpendableOverRun` | contracts/governance-token/src/lib.rs:242-278 | in every reachable state the team can spend all but the unvested part of 20 million tokens over 730 days with a cliff of 180, and everyone else all they hold |
| `TokenEffects.LaunchDistributes` | contracts/governance-token/src/lib.rs:107-165 | who holds which allocation after launch, that only the team's is locked, and that it happens once |
| `TokenEffects.TransferAccepted` | contracts/governance-token/src/lib.rs:286-315 | accepted if and only if nothing is moved or the unlocked balance covers it and the sum fits; refusals name their cause |
| `TokenEffects.TransferFromAccepted` | contracts/governance-token/src/lib.rs:385-436 | the same and the allowance covers it, expiration ledger included |
| `TokenEffects.BurnAccepted` | contracts/governance-token/src/lib.rs:438-464 | accepted if and only if nothing is burned or the unlocked balance covers it |
| `TokenEffects.BurnFromAccepted` | contracts/governance-token/src/lib.rs:466-513 | the same and the allowance covers it, expiration ledger included |
| `TokenEffects.ApprovalGrants` | contracts/governance-token/src/lib.rs:198-233 | accepted if and only if not negative and not expired; later draws are covered exactly up to the amount and through the expiration ledger; no other allowance changes |
| `TokenEffects.DrawDeducts` | contracts/governance-token/src/lib.rs:400-429 | a draw takes its amount off the allowance, leaves the expiration and every other allowance |
| `TokenRuns.BalancesAfter` | contracts/governance-token/src/lib.rs:286-513 | the live balance of every account after any call, self-transfers included |
| `TokenHistory.PayableMeans` | contracts/governance-token/src/lib.rs:295-304 | in a sound state the payer check passes exactly when the unlocked balance covers the amount, and never traps |
| `TokenHistory.CallSupply` | contracts/governance-token/src/lib.rs:286-513 | what one call does to the supply at every ledger |
| `TokenHistory.CallKeepsClosedLedgers` | contracts/governance-token/src/lib.rs:579-636 | no call changes a balance at a ledger that has passed |
| `TokenHistory.CallSound` | contracts/governance-token/src/lib.rs:107-513 | every call keeps checkpoint lists, live balances and the vesting lock consistent, and never changes a schedule |
| `TokenHistory.LastAtOrBeforeRecord` | contracts/governance-token/src/lib.rs:579-636 | writing a checkpoint changes what a scan finds only from the written ledger on |
| `TokenContract.GovernanceToken.BalanceAt` | contracts/governance-token/src/lib.rs:532-571 | the bisection returns what a linear scan for the last checkpoint at or before the ledger returns |
| `TokenContract.GovernanceToken.SetBalance` | contracts/governance-token/src/lib.rs:579-636 | balance overwritten, and the checkpoint of this ledger overwritten or a new one appended |
| `TokenContract.GovernanceToken.Initialize` | contracts/governance-token/src/lib.rs:107-165 | outcome and whole storage of the one-time distribution and the team's vesting schedule |
| `TokenContract.GovernanceToken.Approve` | contracts/governance-token/src/lib.rs:198-233 | outcome and whole storage; a negative amount or a past expiration is refused, zero removes the entry |
| `TokenContract.GovernanceToken.CheckPayer` | contracts/governance-token/src/lib.rs:295-304 | which of trap, locked, insufficient or payable holds of the payer |
| `TokenContract.GovernanceToken.Transfer` | contracts/governance-token/src/lib.rs:286-315 | outcome and whole storage, unchanged on failure |
| `TokenContract.GovernanceToken.TransferFrom` | contracts/governance-token/src/lib.rs:385-436 | outcome and whole storage with the allowance drawn down, unchanged on failure |
| `TokenContract.GovernanceToken.Burn` | contracts/governance-token/src/lib.rs:438-464 | outcome and whole storage, unchanged on failure |
| `TokenContract.GovernanceToken.BurnFrom` | contracts/governance-token/src/lib.rs:466-513 | outcome and whole storage with the allowance drawn down, unchanged on failure |
| `GovernanceContract.Governance.Initialize` | contracts/governance/src/lib.rs:211-241 | defaults stored once, refused the second time |
| `GovernanceContract.Governance.CreateProposal` | contracts/governance/src/lib.rs:318-366 | order of refusals, next id, saturating voting end, whole storage |
| `GovernanceContract.Governance.Vote` | contracts/governance/src/lib.rs:495-581 | order of refusals, weight read at the creation ledger, tally and record written together |
| `GovernanceContract.Governance.Evaluate` | contracts/governance/src/lib.rs:622-682 | quorum then majority decide, only after the voting end, idempotent once decided |
| `GovernanceContract.Governance.Queue` | contracts/governance/src/lib.rs:687-745 | an Active proposal is evaluated first; a refusal reverts that evaluation too; queueing twice returns the first execution time |
| `GovernanceContract.Governance.Execute` | contracts/governance/src/lib.rs:748-809 | only from Queued and at or after the execution time; self-amendments applied, status written |
| `GovernanceContract.Governance.Cancel` | contracts/governance/src/lib.rs:819-869 | proposer or admin only, any status but Executed and Cancelled |
| `ContractRuns.CallToken` | contracts/governance-token/src/lib.rs:107-513 | any entry point on the token object does what the same call does on values |
| `ContractRuns.CallGovernance` | contracts/governance/src/lib.rs:211-869 | any entry point on the governance object, reading the token object, does what the same call does on values |
| `ContractRuns.Drive` | contracts/governance/src/lib.rs:211-869 | both objects, deployed and driven through any run, end in exactly the state of that run, the bisection's order always given |
| `HonestRuns.StoredLogIsAPrefix` | indexer/src/backfill.rs:113-193 | in every run of stops, resumes and rewinds the rows are a prefix of the source's known events, none twice, holding every known event up to the checkpoint |
| `HonestRuns.CompleteRunsAgree` | indexer/src/backfill.rs:113-193 | any two runs that reached the horizon, however interrupted, hold the same rows: exactly the known events of the range |
| `HonestRuns.HonestPagesAreNeverRefused` | indexer/src/backfill.rs:92-105 | an honest source is never reported as contradicting itself |
| `HonestProgress.HonestPassCompletes` | indexer/src/backfill.rs:126-193 | from any idle state of an honest run, the pass over the given honest answers that decode, one per ledger at most, succeeds, stores exactly the known events up to the tip and is itself an honest run |
| `HonestProgress.HonestPageGoesThrough` | indexer/src/backfill.rs:144-175 | an honest page that decodes is checked, stored and checkpointed and moves the walk on |
| `HonestRuns.RunCovered` | indexer/src/backfill.rs:126-193 | the invariant of every honest run, tying rows, checkpoint, fingerprints and the pass in flight to one position in the log |
| `HonestRuns.PageIsRange` | indexer/src/rpc.rs:63-76 | a page holds exactly the log's events in its ledger range |
| `ReorgRuns.NothingIsRewritten` | indexer/src/reorg.rs:247-298 | against any source, no recorded fingerprint ever changes and no row is ever changed or removed |
| `ReorgRuns.ContradictionStoresNothing` | indexer/src/backfill.rs:92-105 | a page with a contradicted ledger stores no row and moves no checkpoint, and the pass can only end |
| `ReorgRuns.ContradictingPageIsDoomed` | indexer/src/backfill.rs:92-105 | a page that contradicts a record is in that state from the moment it arrives |
| `ReorgRuns.EveryRowMatchesFirstSight` | indexer/src/backfill.rs:144-173 | against any source, every row came from a fetched page whose view of its ledger is the first one recorded |
| `ReorgRuns.SingleViewPerLedger` | indexer/src/reorg.rs:83-121 | with a collision-free digest all rows of a ledger belong to one list of events |
| `Fingerprints.FingerprintIgnoresOrder` | indexer/src/reorg.rs:83-121 | pages with the same events for a ledger give it the same fingerprint, in any order and whatever other ledgers hold |
| `Fingerprints.OrderIrrelevantIffUnambiguous` | indexer/src/reorg.rs:83-121 | the canonical order is the same for every shuffle of a page if and only if no two different events of the ledger share a key |
| `Fingerprints.SortSorts` | indexer/src/reorg.rs:95-99 | the canonical order is sorted by key and a permutation |
| `Fingerprints.SortStable` | indexer/src/reorg.rs:95-99 | events with equal keys keep their page order |
| `Fingerprints.DigestCoversEverything` | indexer/src/reorg.rs:101-115 | the digest covers every event and their order: it collides only if one of its rounds does |
| `IndexerBackfill.Backfiller.Fingerprint` | indexer/src/reorg.rs:83-121 | filter, sort and fold compute the fingerprint of the canonical order |
| `IndexerBackfill.Backfiller.Observe` | indexer/src/reorg.rs:247-298 | first sight records, agreement and the three kinds of discrepancy record nothing |
| `IndexerBackfill.ObservationMeans` | indexer/src/reorg.rs:247-298 | which observation is made, in terms of the number of events reported and recorded, and that only first sight records |
| `IndexerBackfill.Backfiller.CheckPage` | indexer/src/backfill.rs:92-105 | ledgers are observed in ascending order up to the first discrepancy |
| `IndexerBackfill.Backfiller.IngestBatch` | indexer/src/ingest/mod.rs:66-98 | rows after an in-order pass that skips the unrecognised and stops at the malformed; stored, duplicate and unrecognised counts each tied to the rows and the batch |
| `IndexerBackfill.CountsMean` | indexer/src/ingest/mod.rs:66-98 | the three counts are the rows added, the known events already stored and the unknown ones |
| `IndexerBackfill.Backfiller.RunToTip` | indexer/src/backfill.rs:126-193 | report or failure and the whole database are those of the pass over the source's answers, for every tip |
| `IndexerBackfill.PassIsARun` | indexer/src/backfill.rs:126-193 | the pass is a run of the small-step machine, so what holds of all runs holds of it |
| `IndexerBackfill.ReportsAreTrue` | indexer/src/backfill.rs:139-192 | a report means a complete checkpoint at its last ledger, at or past the tip, and as many new rows as it says |
| `IndexerBackfill.PassesFollowOn` | indexer/src/backfill.rs:113-119 | a pass after a successful one starts at the very next ledger, a first one where configured |
| `IndexerBackfill.WindowIsScanned` | indexer/src/backfill.rs:156-161 | a page accounts for exactly what the source scanned and the window asked for as far as the tip |
| `IndexerBackfill.MaximumTipIsNeverReached` | indexer/src/backfill.rs:144-176 | with the tip at the last 32-bit ledger no pass succeeds, for every sequence of answers |
| `IndexerBackfill.PassEndsIffTipBelowMaximum` | indexer/src/backfill.rs:144-176 | a pass whose pages go through, with an answer per ledger, succeeds if and only if the tip is below the last 32-bit ledger |
| `IndexerBackfill.MachineTakesPage` | indexer/src/backfill.rs:144-173 | checking, ingesting and checkpointing a page in one go is what the small steps of the machine do |
| `IndexerBackfill.RefusedIffContradicted` | indexer/src/backfill.rs:92-105 | a page is refused if and only if some event in it lies in a ledger recorded differently |
| `IndexerBackfill.RefusedPageStoresNothing` | indexer/src/backfill.rs:144-153 | a refused page ends the pass with no row stored and no checkpoint moved |
| `IndexerBackfill.EmptiedLedgerIsNotNoticed` | indexer/src/backfill.rs:92-105 | a re-read without any event of a recorded ledger passes although it disagrees |
| `EventFeed.EventsAfter` | indexer/src/store.rs:124-168 | one page: the first matches after the cursor, and a next cursor exactly when more remain and a positive limit was asked |
| `EventFeed.TraversalIsExact` | indexer/src/store.rs:124-168 | following cursors while the table grows yields exactly the matching rows of the table at the last read, in cursor order, none twice, ending once enough pages were read, if and only if the limit is positive or nothing matches |
| `EventFeed.ResumeAfter` | indexer/src/store.rs:136-151 | asking after the last row handed out asks for exactly the rest |
| `EventFeed.NextCursorLeadsOn` | indexer/src/store.rs:157-167 | a next cursor is handed out if and only if following it leads to more; without one the page holds all that was left |
| `EventFeed.FilterMeans` | indexer/src/store.rs:136-151 | an address lists the events whose owner or keeper it is, a type the events of that kind, both what each would |
| `EventFeed.IngestionGrowsTheTable` | indexer/src/store.rs:75-118 | whatever ingestion does, the table only grows at the end under ever larger cursors |
| `EventStream.RegistryEventStream.constructor` | rust-sdk/src/stream.rs:113-130 | a fresh stream stands at its ledger or saved cursor with nothing buffered |
| `EventStream.RegistryEventStream.Next` | rust-sdk/src/stream.rs:159-208 | the loop's result and whole state for any sequence of answers, unchanged on a failed request |
| `EventStream.YieldsTheLog` | rust-sdk/src/stream.rs:159-208 | over any calls, page sizes, empty pages and failures the items are the log from the start, in order, each once, undecodable ones included |
| `EventStream.RestartLosesNothing` | rust-sdk/src/stream.rs:151-153 | a new stream from the saved cursor continues exactly where the items stopped although the buffer was lost |
| `EventStream.WaitsOnlyAtTheEnd` | rust-sdk/src/stream.rs:159-208 | a call waits if and only if nothing is buffered and every answer it got was an empty page |
| `EventStream.StreamRemembersItsPlace` | rust-sdk/src/stream.rs:113-208 | the current cursor is the saved one, the last item's or the last empty page's; no request while anything is buffered; a failed one changes nothing |
| `AdminFold.FoldIsLive` | contracts/keeper-registry/src/admin.rs:25-238 | for every run of the entry points the fold of the emitted events is the live admin, token, fee, pause flag, minimum reward and code, and swept plus remaining fees are all fees ever accrued |
| `AdminFold.EventsTellTheTruth` | contracts/keeper-registry/src/admin.rs:25-238 | each event's old value, caller or remaining amount is what the log before it folds to |
| `AdminFold.OnlyAdminReconfigures` | contracts/keeper-registry/src/admin.rs:94-238 | once initialized only the admin changes configuration or takes fees, short of a negative accrual, and the reward token never changes |
| `RegistryRequests.StorageIsWhatWasAsked` | contracts/keeper-registry/src/admin.rs:25-238 | in every run storage is what the arguments of the granted calls asked for, and any next call is accepted if and only if the admin asks for something in range |
| `RegistryRequests.FoldIsWhatWasAsked` | indexer/src/state.rs:240-276 | the indexer's fold shows what was asked for |
| `RegistryRequests.EventsSayWhatWasAsked` | contracts/keeper-registry/src/admin.rs:25-238 | an accepted call emits one event carrying its arguments |
| `RegistryRequests.RefusalsNameTheirCause` | contracts/keeper-registry/src/admin.rs:25-238 | each error is returned only for its own cause |
| `AdminFold.IndexedConfigIsLive` | indexer/src/store.rs:382-398 | end to end: an indexer that reached the tip in any interrupted passes folds its rows to the contract's own configuration |
| `AdminFold.FoldEvents` | indexer/src/state.rs:240-276 | the loop computes the left-to-right fold, later events superseding earlier ones |
| `RegistryContract.KeeperRegistry.RequireAdmin` | contracts/keeper-registry/src/internal.rs:61-76 | uninitialized and unauthorized are told apart |
| `RegistryContract.KeeperRegistry.Initialize` | contracts/keeper-registry/src/admin.rs:25-50 | outcome, whole storage and emitted event |
| `RegistryContract.KeeperRegistry.Pause` | contracts/keeper-registry/src/admin.rs:94-100 | outcome, whole storage and emitted event |
| `RegistryContract.KeeperRegistry.Unpause` | contracts/keeper-registry/src/admin.rs:101-107 | outcome, whole storage and emitted event |
| `RegistryContract.KeeperRegistry.SetFeeBps` | contracts/keeper-registry/src/admin.rs:113-123 | outcome, whole storage and emitted event with the old fee |
| `RegistryContract.KeeperRegistry.SetMinReward` | contracts/keeper-registry/src/admin.rs:129-139 | outcome, whole storage and emitted event with the old minimum |
| `RegistryContract.KeeperRegistry.SetReputationFloor` | contracts/keeper-registry/src/admin.rs:147-159 | outcome, whole storage and an event the indexer does not recognise |
| `RegistryContract.KeeperRegistry.TransferAdmin` | contracts/keeper-registry/src/admin.rs:166-173 | outcome, whole storage and emitted event |
| `RegistryContract.KeeperRegistry.Upgrade` | contracts/keeper-registry/src/admin.rs:179-193 | outcome, running code and emitted event |
| `RegistryContract.KeeperRegistry.SweepFees` | contracts/keeper-registry/src/admin.rs:208-238 | order of refusals, never more than accrued, whole storage and emitted event |
| `RegistryContract.KeeperRegistry.AccrueFee` | contracts/keeper-registry/src/internal.rs:267-281 | the accumulator changes by the amount, whatever its sign, or the call is refused when the sum does not fit |
| `RegistryContract.KeeperRegistry.Call` | contracts/keeper-registry/src/admin.rs:25-238 | any entry point on the object does what the same call does on values |
| `ContractRuns.DriveRegistry` | contracts/keeper-registry/src/admin.rs:25-238 | a registry object driven through any calls ends in the state of that run |
| `TtlCacheModel.AlwaysBookkept` | indexer/src/cache.rs:172-230 | in every interleaving the cache is within capacity, hits plus misses are the lookups, and keys that came in are live, expired, evicted or cleared |
| `TtlCacheModel.AlwaysHoldsLatest` | indexer/src/cache.rs:172-230 | in every interleaving each entry is the last store under its key |
| `TtlCacheModel.HitsAreFresh` | indexer/src/cache.rs:172-193 | a hit is the last value stored under that very key, less than the TTL ago |
| `TtlCacheModel.LookupServes` | indexer/src/cache.rs:172-193 | an entry is served if and only if younger than the TTL, dropped only when found expired, others untouched |
| `TtlCacheModel.StoreDropsOnlyWhatItMust` | indexer/src/cache.rs:195-230 | an entry survives a store unless the cache is full for a new key and it has expired, or the live ones fill it and it is the one oldest to go |
| `TtlCacheModel.TtlCache.Lookup` | indexer/src/cache.rs:172-193 | hit, expiry with removal, and miss, with their counters |
| `TtlCacheModel.TtlCache.FindOldest` | indexer/src/cache.rs:211-215 | the minimum found over the unordered map is an oldest entry |
| `TtlCacheModel.TtlCache.Store` | indexer/src/cache.rs:195-230 | when full and the key is new, expired entries go first and then one oldest; then the entry is stored now |
| `TtlCacheModel.TtlCache.GetOrInsertWith` | indexer/src/cache.rs:154-170 | a disabled cache only computes, a hit is returned as is, and a computed value is stored and served at every instant until its TTL is over |
| `Reputation.KeeperReputation.Update` | contracts/keeper-registry/src/reputation.rs:62-80 | one keeper's record is counted, stamped and rescored, nobody else's changes |
| `Reputation.KeeperReputation.Recompute` | contracts/keeper-registry/src/reputation.rs:52-59 | the score of the counts, zero when there are none |
| `Reputation.KeeperReputation.RequireReputationFloor` | contracts/keeper-registry/src/reputation.rs:112-122 | passes if and only if the stored score reaches the floor; without history only a zero floor does |
| `Reputation.ScoreIsTheRate` | contracts/keeper-registry/src/reputation.rs:52-80 | over any run of all keepers, while counts fit, the score is the keeper's own success rate in basis points rounded down |
| `Reputation.RecordCounts` | contracts/keeper-registry/src/reputation.rs:62-80 | a record holds the keeper's own counts, saturated, and the ledger of their last action |
| `Reputation.OrderIsIrrelevant` | contracts/keeper-registry/src/reputation.rs:62-80 | reordering the actions never changes a score, saturated or not |
| `Reputation.ScoreMovesTheRightWay` | contracts/keeper-registry/src/reputation.rs:52-80 | at any counts the score is at most full, a success never lowers it and a miss never raises it |
| `Reputation.DecayIsFloorDivision` | contracts/keeper-registry/src/reputation.rs:127-136 | after n half-lives the score is divided by two to the n and rounded down, wide shifts included |
| `Reputation.DecayComposes` | contracts/keeper-registry/src/reputation.rs:127-136 | decay by a and then by b half-lives is decay by a + b |
| `Reputation.ViewHalvesEvery100000Ledgers` | contracts/keeper-registry/src/reputation.rs:127-136 | the viewed score is the stored one divided by two for every 100,000 ledgers since the last action, rounded down |
| `Reputation.ViewDecays` | contracts/keeper-registry/src/reputation.rs:127-136 | the decayed view starts as the stored record, never rises with the ledger and leaves the counts alone |

## Left out

- The other versions merged into both governance source files, and everything only they use.
- Storage rent and archival, `require_auth`, the mechanics of publishing events, and running upgraded code: host behaviour.
- `internal_get_voting_power` call failures: the token is read directly, as an object in the same run.
- Registry effects of executed proposals: an executed action that targets the registry or the treasury changes only the proposal's status here, as in the source.
- Task lifecycle, staking, disputes, batches and the treasury: separate state machines; their events appear as one recognised kind that administration ignores.
- The folds `TaskState` and `KeeperSummary` of the indexer: their other side is the task lifecycle, which is not part of this model.
- SQLite, migrations, JSON, XDR, address normalisation and HTTP: tables are a sequence, a map and one record; addresses compare as given.
- `HttpClient`, whose pages are cut by event count and report the node's latest ledger: the honest source follows the `EventSource` contract.
- The bits of FNV-1a: the digest is any function folded over the canonical order; only the single-view theorem asks that it does not collide.
- Rewinding the checkpoint below the configured start or forwards, and changing the start between runs.
- IndexerBackfill.Backfiller.RunToTip: the source's answers are a finite sequence and the pass fails when they run out; with the tip at the last 32-bit ledger the source's own loop goes on for as long as there are answers.
- AdminFold.FoldEvents: adds swept amounts without the 128-bit limit; without negative accruals the sum never exceeds all fees ever accrued.
- EventStream.RegistryEventStream.Next: retries and delays are folded into one answer per request; waiting forever is the answers running out.
- TtlCacheModel.TtlCache.GetOrInsertWith: stated for a caller alone on the cache; interleavings of its two atomic steps are covered by the run theorems. Counters do not wrap at 64 bits.
- Supervision, shutdown, progress reporting, alerts, configuration, client wrappers and error texts: plumbing.
