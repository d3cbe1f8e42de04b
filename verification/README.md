# Verified model of the oracle and escrow contracts

A Dafny model of a chess-wager system on Soroban: the oracle contract (m-of-n voting on match results,
stake, slashing, rate limits), the escrow contract (match lifecycle, payouts, disputes) and the
reconciliation pass of the off-chain oracle service.

Each contract is modelled twice. A simple state machine over the primary records (`OracleModel`,
`EscrowModel`) says what every transaction does: an error leaves the state unchanged, clocks do not run
back, a transfer fails on a negative amount or an insufficient balance. The properties of whole runs are
proved about it. A class (`OracleContract`, `EscrowContract`) works as the code does, with the structures
the code keeps for speed: the oracle list, the versioned eligibility counts, the lists of staged slashes,
the per-state match index, the active sets and counters, and the 32-slot snapshot rings. Every entry
point of a class is proved to take exactly the corresponding step of the state machine and to keep those
structures equal to what a recomputation from the primary records would give. So are the steps between
entry points: a change of settings, the close of a ledger, a transfer between other accounts
(`SetConfig`, `NextLedger`, `OtherTransfer`).

| files | content |
|---|---|
| `Prelude`, `Arithmetic` | results, addresses, integer widths, finite sums, the token ledger |
| `RateLimiter`, `Metrics` | submission windows, response-time metrics |
| `OracleModel`, `OracleInvariants`, `OracleRuns` | the oracle state machine, its invariant, whole runs |
| `Deadlock`, `Finalisability`, `EligibilityCache` | the deadlock flag, when a match can still be decided, the cached count |
| `OracleStakes`, `OracleHistory` | what each transaction costs whom, accounts and staged slashes over whole runs |
| `OracleResults`, `OracleUsage`, `BatchResults` | results, cache, histories, quotas and metrics over whole runs, the batch path |
| `OracleContract` | the oracle contract class |
| `EscrowModel`, `EscrowInvariants`, `EscrowRuns` | the escrow state machine, its invariant, whole runs |
| `EscrowMoney`, `EscrowSolvency`, `PlayerCounter` | surplus, solvency, the per-player counter |
| `EscrowAccounts`, `EscrowRecords`, `EscrowPlayers` | the balance of every account, the record of every match, the data of every player |
| `EscrowHistory`, `EscrowTimelines`, `EscrowPermits` | results, claims and timed protocols traced over whole runs, and when a call succeeds |
| `EscrowExamples` | runs on which the expected properties named below fail |
| `EscrowDisputes`, `BalanceHistory`, `MatchIndex` | the dispute protocol, the snapshot ring, the state index |
| `EscrowContract` | the escrow contract class |
| `VersionPrinter`, `Reconciliation` | the version text, the reconciliation pass and retries |

Some properties one might expect do not hold of the code as written; each has a lemma with a run or an
input on which it fails and a lemma giving the exact condition under which it holds.

- A claim keeps the contract solvent exactly when the result did not go through the dispute docket and
  either the match is a draw or the protocol fee is not negative (`EscrowMoney.GapSign`,
  `EscrowMoney.RunSurplus`; `EscrowExamples.NegativeCapOverpays`, `EscrowExamples.DocketedClaimPaysAgain`).
- The per-player counter is the sum of open stakes exactly when no deposit is stranded in a match that
  was rolled back, resolved by the admin or resolved by vote (`PlayerCounter.CounterExact`;
  `EscrowExamples.RollbackStrands`). The comment on the counter promises the sum unconditionally.
- A vote weight is frozen from the raising of a dispute on exactly when the hold duration is at least 1
  (`BalanceHistory.HoldFreezesExactly`, `BalanceHistory.FrozenExact`; `EscrowExamples.NoHoldNoFreeze`).
- The cached eligibility count is retired exactly while the u32 version has not saturated
  (`EligibilityCache.StaleOnlyAtCeiling`).

Where code and documentation differ the model follows the code: the admin stall window counts from
activation, not from the last heartbeat; a dispute after the deadline is refused with
`DisputePeriodNotElapsed`; a result may complete an active match directly; a settled match is counted as
completed at settlement and again at finalisation.

## Model

| member | source | states |
|---|---|---|
| `OracleRuns.StepKeeps` | contracts/oracle/src/lib.rs:188-256 | every registration, top-up, vote, equivocation, staged slash, dispute resolution, submission and setting change keeps the books funded and the ballots consistent and leaves, for every token, balance minus registered stakes unchanged |
| `OracleRuns.RunKeeps` | contracts/oracle/src/lib.rs:1708-1737 | stake conservation and ballot consistency in every state of every run, with the same surplus as at the start |
| `OracleRuns.FreshInv` | contracts/oracle/src/lib.rs:163-177 | an initialised contract satisfies the invariant |
| `OracleInvariants.SeizeConserves` | contracts/oracle/src/lib.rs:1708-1737 | taking part of a stake and paying it to the admin keeps the surplus of every token |
| `OracleInvariants.SlashAmountBounds` | contracts/oracle/src/lib.rs:1708-1737 | a slash takes between nothing and the whole stake; 10000 bps take all, 1000 bps take floor(stake/10) |
| `OracleInvariants.ExactPenalties` | contracts/oracle/src/lib.rs:1039-1061 | a round of minority slashes takes floor(stake/10) once from each listed oracle and nothing from anybody else |
| `OracleInvariants.PenaltyFloor` | contracts/oracle/src/lib.rs:1708-1737 | any number of minority slashes leaves at least min(stake, 9), and enough of them leave exactly that |
| `OracleInvariants.OnceInTally` | contracts/oracle/src/lib.rs:916-1000 | an oracle appears at most once in a whole tally, across all candidates |
| `OracleInvariants.LosersListed` | contracts/oracle/src/lib.rs:1039-1061 | the slashed oracles are exactly those listed for a candidate other than the winner |
| `OracleInvariants.LosersDistinct` | contracts/oracle/src/lib.rs:1039-1061 | no oracle is slashed twice, and each slashed one has a recorded vote for another candidate |
| `OracleInvariants.WinnersSpared` | contracts/oracle/src/lib.rs:1039-1061 | no oracle behind the winning candidate is slashed |
| `OracleRuns.FinalizeSlashStep` | contracts/oracle/src/lib.rs:434-487 | executing a staged slash takes min(staged, stake), so stakes stay non-negative even when staged slashes exceed the stake, in the registered token |
| `OracleRuns.QuorumBehindResult` | contracts/oracle/src/lib.rs:961-1019 | a result published by a vote has at least threshold distinct oracles whose recorded vote is that result |
| `OracleRuns.QuorumStaysOnRecord` | contracts/oracle/src/lib.rs:961-1019 | that quorum is still on record in every later state of the run |
| `OracleRuns.RunKeepsVotes` | contracts/oracle/src/lib.rs:953-960 | a recorded vote is never changed or removed |
| `OracleRuns.FinalisationPenalties` | contracts/oracle/src/lib.rs:1039-1061 | a finalising vote takes floor(stake/10) from exactly the oracles listed for losing candidates and spares the winners |
| `OracleRuns.FinalisationRecord` | contracts/oracle/src/lib.rs:997-1070 | a finalising vote publishes only its match, closes the tally and appends one history entry to exactly the winners |
| `OracleRuns.HistoryExact` | contracts/oracle/src/lib.rs:1559-1586 | logging for distinct oracles appends once to each of their histories and to no other |
| `OracleStakes.EquivocationCost` | contracts/oracle/src/lib.rs:917-941 | a second, contradicting vote takes the oracle's whole stake, pays it to the admin in the stake's token, and changes no other stake, balance, vote, tally or result |
| `OracleStakes.LateVoteCost` | contracts/oracle/src/lib.rs:881-911 | a vote against a published result takes floor(stake/10) from that oracle alone, to the admin, and changes nothing else |
| `OracleStakes.ResolutionRecord` | contracts/oracle/src/lib.rs:1127-1211 | an admin resolution is accepted exactly on a disputed, unpublished match, publishes the admin's claim for that match only and closes the tally |
| `OracleStakes.ResolutionPenalties` | contracts/oracle/src/lib.rs:1155-1171 | it takes floor(stake/10) once from each oracle listed for another claim and leaves every other registration alone |
| `OracleStakes.RegistrationExact` | contracts/oracle/src/lib.rs:188-256 | when a registration is accepted, and that its amount goes from the oracle to the contract and nothing else moves |
| `OracleStakes.StakeStep` | contracts/oracle/src/lib.rs:842-1061 | by how much each transaction moves each oracle's stake |
| `OracleStakes.StakeLedger` | contracts/oracle/src/lib.rs:842-1061 | over every run a stake is what it was, plus what the oracle added, less exactly the listed penalties |
| `OracleStakes.BlamelessKeepsStake` | contracts/oracle/src/lib.rs:842-1061 | over every run an oracle that votes once per open match, whose votes agree with what is decided and against whom no staged slash is executed, never loses stake |
| `OracleHistory.AccountStep` | contracts/oracle/src/lib.rs:1708-1737 | no account but the registering oracle's pays and none but the admin's receives; the admin receives exactly what the stakes lose |
| `OracleHistory.StagedTraced` | contracts/oracle/src/lib.rs:356-423 | every staged slash of a run was staged in it with amount, token and ledgers on record, and not handled since |
| `OracleHistory.ExecutableExactly` | contracts/oracle/src/lib.rs:434-487 | a staged slash can be executed exactly from its ledger of eligibility on |
| `OracleHistory.ExecutedAfterGrace` | contracts/oracle/src/lib.rs:434-487 | over every run an executed slash was staged before, its grace period has passed, nothing happened to it in between, and it takes the staged amount or the whole stake |
| `OracleResults.VoteBoard` | contracts/oracle/src/lib.rs:961-1099 | a vote publishes its own claim or nothing, and drops the cached answer of its game exactly when it flags the tally |
| `OracleResults.PublishStep` | contracts/oracle/src/lib.rs:587-670 | what a vote, a resolution, a submission or a batch publishes is new and is on the board as published |
| `OracleResults.ResultStep` | contracts/oracle/src/lib.rs:587-670 | a result changes only by deletion and appears only by publication |
| `OracleResults.ResultTraced` | contracts/oracle/src/lib.rs:961-1070 | over every run each result on the board traces to the transaction that published that claim under that submitter, untouched since |
| `OracleResults.CacheTraced` | contracts/oracle/src/lib.rs:652-660 | over every run a cached answer was on the board as the result of a match on that game one cache lifetime before it expires |
| `OracleResults.DeletionExact` | contracts/oracle/src/lib.rs:1856-1894 | a deletion removes the result of its match and the cached answer of its game, and no more |
| `OracleResults.HistoryLedger` | contracts/oracle/src/lib.rs:1559-1586 | over every run an oracle's history is, in order, the submissions credited to it |
| `Deadlock.DeadlockExact` | contracts/oracle/src/lib.rs:1071-1099 | a tally is flagged exactly when no votes of the remaining oracles, for existing or new candidates, can bring any candidate to the threshold |
| `Deadlock.VoteFlagExact` | contracts/oracle/src/lib.rs:961-1099 | the flag a non-finalising vote stores is exact for the oracles then still eligible |
| `Finalisability.FirstVote` | contracts/oracle/src/lib.rs:842-1099 | a first vote publishes exactly when it completes the threshold, and publishes the claim it names; otherwise it removes its oracle from the eligible ones, keeps all stakes and stores the exact flag |
| `Finalisability.Equivocation` | contracts/oracle/src/lib.rs:917-941 | a second vote changes no result, no tally and no other oracle's right to vote |
| `Finalisability.PublishingNeeds` | contracts/oracle/src/lib.rs:842-1099 | a sequence of accepted votes that publishes a claim starts with enough eligible oracles for it |
| `Finalisability.EnoughVoters` | contracts/oracle/src/lib.rs:842-1099 | with enough eligible oracles, a sequence of votes is constructed that the contract accepts and that publishes the claim |
| `Finalisability.FinalisableExactly` | contracts/oracle/src/lib.rs:842-1099 | some sequence of accepted votes publishes a claim exactly when its support plus the eligible oracles reach the threshold and one is eligible |
| `Finalisability.UnflaggedCanFinalise` | contracts/oracle/src/lib.rs:1071-1099 | from every tally that the deadlock test passes, some sequence of accepted votes publishes one of its candidates |
| `Finalisability.StepKeepsNamed` | contracts/oracle/src/lib.rs:842-915 | every transaction keeps all candidates named by a non-empty game id |
| `EligibilityCache.TrackedKeepsCache` | contracts/oracle/src/lib.rs:1592-1665 | a stake change that bumps the version whenever eligibility changes keeps every current cached count equal to the scan |
| `EligibilityCache.VoteKeepsCache` | contracts/oracle/src/lib.rs:1592-1623 | a vote keeps the cached counts of other matches exact, once its own is dropped or refreshed |
| `EligibilityCache.VoteShrinksEligible` | contracts/oracle/src/lib.rs:1599-1609 | a recorded vote removes exactly its oracle from the eligible ones of that match |
| `EligibilityCache.StaleOnlyAtCeiling` | contracts/oracle/src/lib.rs:1655-1665 | a cached count goes on being used although wrong exactly when the version counter has saturated |
| `OracleContract.RefreshedCache` | contracts/oracle/src/lib.rs:1592-1623 | the decremented or rescanned count equals the scan below the version ceiling |
| `OracleContract.AddToTally` | contracts/oracle/src/lib.rs:961-995 | the search loop adds the vote to the candidate it names, or opens one, and returns where |
| `OracleContract.StillPossible` | contracts/oracle/src/lib.rs:1073-1082 | the loop answers whether some candidate can still reach the threshold, saturation included |
| `OracleContract.OracleContract.constructor` | contracts/oracle/src/lib.rs:163-177 | a new contract is valid and empty |
| `OracleContract.OracleContract.RegisterOracleWithStake` | contracts/oracle/src/lib.rs:188-256 | takes the specified registration step, keeping the oracle list, the eligibility version and the cache exact |
| `OracleContract.OracleContract.SlashOracle` | contracts/oracle/src/lib.rs:356-423 | stages a slash or reports the specified error; the per-oracle list stays exact |
| `OracleContract.OracleContract.FinalizeSlash` | contracts/oracle/src/lib.rs:434-487 | executes a staged slash as specified, with list, version and cache kept exact |
| `OracleContract.OracleContract.AdminCancelSlash` | contracts/oracle/src/lib.rs:495-521 | withdraws a staged slash as specified |
| `OracleContract.OracleContract.RemovePendingSlashMatch` | contracts/oracle/src/lib.rs:558-576 | strikes exactly one match from one oracle's list |
| `OracleContract.OracleContract.GetPendingSlashes` | contracts/oracle/src/lib.rs:538-552 | returns every staged slash of the oracle in list order and nothing else |
| `OracleContract.OracleContract.SlashBps` | contracts/oracle/src/lib.rs:1708-1737 | applies the specified slash, returns what was taken, and moves the version when the stake reaches zero |
| `OracleContract.OracleContract.CountRemainingEligible` | contracts/oracle/src/lib.rs:1625-1653 | the scan counts exactly the registered oracles with stake and without a vote on the match |
| `OracleContract.OracleContract.RemainingEligibleOracles` | contracts/oracle/src/lib.rs:1592-1623 | one less than a current cached count, the scan otherwise; the answer is stored at the current version |
| `OracleContract.OracleContract.SlashMinority` | contracts/oracle/src/lib.rs:1039-1061 | the nested loops apply one minority slash to every oracle behind another candidate |
| `OracleContract.OracleContract.SlashDisagreeing` | contracts/oracle/src/lib.rs:1155-1171 | the nested loops slash every oracle behind a candidate that differs from the decision |
| `OracleContract.OracleContract.SubmitOracleResult` | contracts/oracle/src/lib.rs:842-1109 | takes the specified voting step with the cached count in place of the scan, while the version counter is below its ceiling; always keeps the contract valid |
| `OracleContract.OracleContract.ResolveDisputedMatch` | contracts/oracle/src/lib.rs:1127-1211 | takes the specified resolution step and retires the cached count of the match |
| `OracleContract.OracleContract.SubmitResult` | contracts/oracle/src/lib.rs:587-670 | takes the specified single-submission step |
| `OracleContract.OracleContract.ValidateBatch` | contracts/oracle/src/lib.rs:722-746 | the nested validation loops report the first fault in order |
| `OracleContract.OracleContract.SubmitBatchResults` | contracts/oracle/src/lib.rs:685-797 | takes the specified batch step: everything or nothing |
| `OracleContract.OracleContract.DeleteResult` | contracts/oracle/src/lib.rs:1856-1894 | removes a result and its cache entry as specified |
| `OracleContract.OracleContract.DeactivateSlowOracle` | contracts/oracle/src/lib.rs:1400-1430 | deactivates exactly when the stored mean exceeds the threshold |
| `OracleContract.OracleContract.SetConfig` | contracts/oracle/src/lib.rs:1230-1260 | a change of settings takes the configuration step and leaves list, version and cache exact |
| `BatchResults.BatchIsFold` | contracts/oracle/src/lib.rs:685-797 | a batch of 1 to 100 entries commits exactly when its single submissions would all succeed, with the same results, cache, history and windows |
| `BatchResults.AdmitSplit` | contracts/oracle/src/lib.rs:2212-2262 | charging a + b at once equals charging a and then b at the same instant |
| `BatchResults.FaultFree` | contracts/oracle/src/lib.rs:722-746 | validation passes exactly when entries are non-empty, new and pairwise distinct |
| `BatchResults.SinglesCharacterised` | contracts/oracle/src/lib.rs:587-670 | when a sequence of single submissions succeeds and what it leaves behind |
| `RateLimiter.EstimateNeverGrows` | contracts/oracle/src/lib.rs:2168-2202 | between submissions the estimate never grows, across rollover and reset too |
| `RateLimiter.TwoStepRoll` | contracts/oracle/src/lib.rs:2168-2191 | rolling a window forward in two steps gives the same estimate as in one |
| `RateLimiter.WindowBound` | contracts/oracle/src/lib.rs:2212-2262 | for every limit, any interval of one span holds at most 2 * limit admitted submissions, and at most the limit since the window's anchor |
| `RateLimiter.WindowBoundAttained` | contracts/oracle/src/lib.rs:2212-2262 | the factor two is attained |
| `RateLimiter.RunExact` | contracts/oracle/src/lib.rs:2168-2191 | the stored counts are exactly the submissions admitted since the window's anchor and in the span before it |
| `RateLimiter.SlidingExact` | contracts/oracle/src/lib.rs:2168-2262 | a request is admitted exactly when it fits: the submissions since the anchor plus the floored share of the previous span still in the lookback |
| `OracleUsage.UsageEffect` | contracts/oracle/src/lib.rs:2212-2262 | which committed transactions are submissions of whom, and that exactly those charge the windows and record a response time |
| `OracleUsage.WindowsFollowRun` | contracts/oracle/src/lib.rs:2212-2262 | along every run each stored window is that of the oracle's own committed submissions, all of them admitted |
| `OracleUsage.QuotaBound` | contracts/oracle/src/lib.rs:2212-2262 | over every run with the oracle's limits fixed, at most twice the hourly limit of its submissions (votes, equivocations, singles, batches) commit in any hour and twice the daily limit in any day |
| `Metrics.MeanErrorBound` | contracts/oracle/src/lib.rs:1432-1478 | the stored mean never exceeds the exact mean and is below it by at most (n-1)/2 |
| `Metrics.MeanErrorAttained` | contracts/oracle/src/lib.rs:1432-1478 | that error is attained |
| `Metrics.UptimeExact` | contracts/oracle/src/lib.rs:1432-1478 | the counts are exact and uptime is the floored percentage, hence within 0..100 |
| `Metrics.SlowIsReallySlow` | contracts/oracle/src/lib.rs:1400-1430 | an oracle found slow by the stored mean is slow by the exact mean |
| `OracleUsage.MetricsFollowRun` | contracts/oracle/src/lib.rs:1432-1478 | along every run the stored counts, mean and uptime are those of the response times the run recorded for the oracle |
| `OracleUsage.StoredMeanError` | contracts/oracle/src/lib.rs:1432-1478 | in every state of a run the stored mean is below the exact mean of those times by at most (n-1)/2 |
| `OracleUsage.DeactivatedWasSlow` | contracts/oracle/src/lib.rs:1400-1430 | a deactivation that succeeds in a run found an oracle whose exact mean response time exceeds the threshold |
| `OracleUsage.SlowEnoughIsDeactivated` | contracts/oracle/src/lib.rs:1400-1430 | an oracle whose exact mean exceeds the threshold by more than the error bound can be deactivated |
| `EscrowRuns.CallLocal` | contracts/escrow/src/lib.rs:1357-1368 | every successful call changes one match, soundly, and leaves all records of other matches alone |
| `EscrowRuns.StepKeeps` | contracts/escrow/src/lib.rs:1826-1987 | every transaction keeps match records, docket, counters, caps and logs consistent |
| `EscrowRuns.RunKeeps` | contracts/escrow/src/lib.rs:1826-1987 | that invariant in every state of every run |
| `EscrowRuns.FreshInv` | contracts/escrow/src/lib.rs:230-260 | an initialised contract satisfies the invariant |
| `EscrowRuns.RunLifecycle` | contracts/escrow/src/lib.rs:1875-1957 | pending matches are not fully funded, all others but cancelled ones are, and no player is in more than 1000 live matches |
| `EscrowRuns.CallLogs` | contracts/escrow/src/lib.rs:5203-5236 | a call leaves each snapshot log alone or appends the player's counter as the call leaves it |
| `EscrowRuns.BallotAdds` | contracts/escrow/src/lib.rs:4482-4496 | a new ballot adds its weight to its side's total and nothing to the other |
| `EscrowDisputes.RunAbsorbs` | contracts/escrow/src/lib.rs:1357-1368 | Completed and Cancelled are absorbing and the terms of a match never change |
| `EscrowMoney.PayAllNet` | contracts/escrow/src/lib.rs:2400-2460 | a transaction's transfers change the contract balance by their net amount |
| `EscrowMoney.ClaimNet` | contracts/escrow/src/lib.rs:5990-6060 | a winner's claim sends out net + referral + protocol fee, which is the pot unless the protocol fee is negative |
| `EscrowMoney.FeeSigns` | contracts/escrow/src/lib.rs:7092-7138 | the protocol fee is non-negative exactly when no fee is set or its cap is not negative; the referral fee always is |
| `EscrowMoney.CallPays` | contracts/escrow/src/lib.rs:2365-2505 | every call but a claim moves exactly what it changes in the dues of its match |
| `EscrowMoney.ClaimMoves` | contracts/escrow/src/lib.rs:5935-6158 | a claim moves what it changes in the dues plus a gap given by the settlement path and the fee |
| `EscrowMoney.StepSurplus` | contracts/escrow/src/lib.rs:1826-1987 | for every token, balance minus dues changes only by the gap of a claim |
| `EscrowMoney.GapSign` | contracts/escrow/src/lib.rs:5935-6158 | the gap is never positive, and zero exactly when the result did not go through the dispute docket and the match is a draw or the fee is non-negative |
| `EscrowMoney.RunSurplus` | contracts/escrow/src/lib.rs:5935-6158 | over every run a token's surplus never rises, and is unchanged exactly when every claim in it was fair |
| `EscrowSolvency.ImmediateRunsAreSolvent` | contracts/escrow/src/lib.rs:2049-2135 | with dispute period 0 and a non-negative fee cap the balance covers everything owed, in every state and token, by the initial margin |
| `EscrowSolvency.MatchConservation` | contracts/escrow/src/lib.rs:1826-1987 | what was paid into a match minus what was paid out is what is still owed on it, so no match pays out more than it took in |
| `EscrowSolvency.PaidExactly` | contracts/escrow/src/lib.rs:2400-2460 | transfers out of a balance that covers them all succeed exactly when no amount is negative |
| `EscrowSolvency.PayoutsSucceed` | contracts/escrow/src/lib.rs:2365-2505 | without a deficit no refund, settlement, admin payout or dispute payout fails for lack of funds |
| `EscrowSolvency.ClaimSucceedsExactly` | contracts/escrow/src/lib.rs:5935-6158 | without a deficit a claim on a match settled at once fails in its transfers exactly when the match has a winner and referral and protocol fee exceed the pot |
| `EscrowSolvency.ImmediateRunsPay` | contracts/escrow/src/lib.rs:2049-2135 | both hold in every state of every run with dispute period 0 and a non-negative fee cap |
| `EscrowAccounts.ProtocolFeeExact` | contracts/escrow/src/lib.rs:7122-7138 | with a rate set, the protocol fee is the greatest amount within the rate and the cap; when it overflows |
| `EscrowAccounts.ReferralFeeExact` | contracts/escrow/src/lib.rs:7092-7120 | the referral fee is its rate of the floored cancellation rate of the pot; when it overflows |
| `EscrowAccounts.BondExact` | contracts/escrow/src/lib.rs:4835-4851 | the bond is the greatest amount within its rate of the stake, and at least 1 |
| `EscrowAccounts.AccountsMove` | contracts/escrow/src/lib.rs:4040-4108 | after every successful call, in every token, every account but the contract's has its balance plus its due: refunds less the cancellation fee, the pot to the named player or each stake back, the claim divided into winner, referrer and fee recipient, the bond where the vote sends it, and nothing for anybody else |
| `EscrowHistory.DecidingStep` | contracts/escrow/src/lib.rs:2049-2086 | the stored result changes only from none to the one an accepted submission or admin resolution names |
| `EscrowHistory.ResultStays` | contracts/escrow/src/lib.rs:2049-2086 | over every run a stored result and its vesting time never change |
| `EscrowHistory.ResultTraced` | contracts/escrow/src/lib.rs:2049-2086 | over every run a stored result is the one the oracle submitted, vested from that moment, or the one the admin fixed |
| `EscrowHistory.DecidedOnce` | contracts/escrow/src/lib.rs:2049-2086 | a match is decided at most once in a run |
| `EscrowHistory.ClaimGate` | contracts/escrow/src/lib.rs:5935-6000 | exactly when a claim passes its checks |
| `EscrowHistory.ClaimedByNamed` | contracts/escrow/src/lib.rs:5935-6158 | over every run a claim succeeds only for a player whom the oracle's one submission entitles, and no earlier than the vesting time after it |
| `EscrowHistory.ClaimedOnce` | contracts/escrow/src/lib.rs:5935-6158 | no player claims twice on one match |
| `EscrowRecords.CallRewrites` | contracts/escrow/src/lib.rs:1826-1987 | how each accepted call rewrites its match record, field by field: state, result, deposits, consents, claims and times |
| `EscrowRecords.StepRewrites` | contracts/escrow/src/lib.rs:1357-1368 | a match record changes only by an accepted call on that match |
| `EscrowRecords.StepCreates` | contracts/escrow/src/lib.rs:1370-1613 | a match appears only by creation, with the given terms and nothing done yet |
| `EscrowTimelines.DocketTraced` | contracts/escrow/src/lib.rs:2136-2186 | a result on the docket is the oracle's, and its deadline lies the dispute period of that moment after the submission |
| `EscrowTimelines.FinalisedAsSubmitted` | contracts/escrow/src/lib.rs:4113-4183 | over every run a finalisation comes at least the dispute period after the submission, on an undisputed match, and gives every account what that submission says |
| `EscrowTimelines.RaisedRecord` | contracts/escrow/src/lib.rs:4196-4353 | what a raised dispute records: disputer, bond, quorum, snapshot ledger and voting deadline, and when it may be raised |
| `EscrowTimelines.DisputeTraced` | contracts/escrow/src/lib.rs:4196-4353 | every dispute was raised in the run by the player on record, a voting period before its deadline |
| `EscrowTimelines.ResolvedAsVoted` | contracts/escrow/src/lib.rs:4514-4632 | over every run a resolution comes a voting period after the dispute, with the quorum of recorded weight, and gives every account what the majority says, bond included |
| `EscrowTimelines.ExpireGate` | contracts/escrow/src/lib.rs:2616-2660 | exactly when an expiry passes its checks, the timeout in seconds |
| `EscrowTimelines.ExpiredAfterTimeout` | contracts/escrow/src/lib.rs:2616-2715 | over every run a match expires no earlier than the timeout after its creation, and depositors get exactly their stake back |
| `EscrowTimelines.RolledBackByBoth` | contracts/escrow/src/lib.rs:2899-3042 | over every run a match under way is called off only after an accepted rollback vote of each player |
| `EscrowTimelines.ConsentInTime` | contracts/escrow/src/lib.rs:2899-2965 | over every run a rollback vote comes within a day of the latest creation, deposit or heartbeat |
| `EscrowTimelines.StalledGate` | contracts/escrow/src/lib.rs:3164-3230 | exactly when an admin resolution passes its checks |
| `EscrowTimelines.ResolvedWhenStalled` | contracts/escrow/src/lib.rs:3164-3335 | over every run it comes more than the stall window after the activating deposit, and the pot goes as the admin says |
| `EscrowTimelines.PauseAccount` | contracts/escrow/src/lib.rs:2562-2608 | over every run the pause account of a match that is not over equals the ledgers it has spent paused |
| `EscrowTimelines.PausedWithinBudget` | contracts/escrow/src/lib.rs:2513-2558 | a match is paused only while it has spent less than the budget paused |
| `EscrowPermits.SucceedsExactly` | contracts/escrow/src/lib.rs:1826-1987 | for every call but a claim, the exact condition under which a contract without a deficit accepts it, transfers included |
| `EscrowPermits.TiersExact` | contracts/escrow/src/lib.rs:3569-3597 | every positive stake is open to the players of exactly one rank |
| `EscrowPermits.StakesComeBack` | contracts/escrow/src/lib.rs:3164-3335 | without a deficit, every pending match in an unblocked token and every match under way can, after a wait, be ended with each depositor's stake returned |
| `EscrowPlayers.CallMovesPlayer` | contracts/escrow/src/lib.rs:5166-5236 | how each call moves each player's counter, log and completion count |
| `EscrowPlayers.HistoryIsCurrent` | contracts/escrow/src/lib.rs:5203-5236 | over every run the newest snapshot of every player shows the present counter |
| `EscrowPlayers.TierRestsOnCompletions` | contracts/escrow/src/lib.rs:3557-3567 | over every run a player's completion count is the number of completing calls |
| `EscrowPlayers.GamesDistinct` | contracts/escrow/src/lib.rs:1467-1473 | over every run no two matches are on the same game |
| `EscrowExamples.NegativeCapOverpays` | contracts/escrow/src/lib.rs:7122-7138 | a run from a new contract with a negative fee cap whose last claim pays more than the pot |
| `EscrowExamples.DocketedClaimPaysAgain` | contracts/escrow/src/lib.rs:5935-6158 | a run from a new contract that docketed, finalised and paid a result, and whose last claim pays the pot once more |
| `EscrowExamples.RollbackStrands` | contracts/escrow/src/lib.rs:2980-3030 | a run from a new contract whose last step, the second rollback vote, leaves the counter above the sum of open stakes |
| `EscrowExamples.NoHoldNoFreeze` | contracts/escrow/src/lib.rs:4401-4409 | a run from a new contract with hold duration 0 in which a deposit after the raising of a dispute changes a voter's weight in it |
| `PlayerCounter.CounterExact` | contracts/escrow/src/lib.rs:5166-5193 | the counter is at least the sum of open stakes, and equal to it exactly when no deposit of the player is stranded in a finished match |
| `PlayerCounter.CounterIsSum` | contracts/escrow/src/lib.rs:5166-5193 | over runs without rollback, admin resolution and dispute resolution the counter is the sum of open stakes |
| `MatchIndex.SortedInsert` | contracts/escrow/src/lib.rs:1305-1332 | the insert loop yields the ascending list with exactly the new id added |
| `MatchIndex.Strike` | contracts/escrow/src/lib.rs:1334-1355 | the removal loop yields the ascending list without the id |
| `MatchIndex.IndexIsFilter` | contracts/escrow/src/lib.rs:1357-1368 | the stored list of a state is the filter over the whole match map |
| `MatchIndex.CollectPage` | contracts/escrow/src/lib.rs:5408-5441 | a page is the slice of the state's list, resolved to match records |
| `MatchIndex.PagesJoin` | contracts/escrow/src/lib.rs:5408-5441 | consecutive pages join without gap or repeat |
| `MatchIndex.PagesCover` | contracts/escrow/src/lib.rs:5408-5441 | reading page after page gives the whole list |
| `BalanceHistory.RecordKeepsRing` | contracts/escrow/src/lib.rs:5203-5236 | recording a snapshot overwrites only an entry that has just left the newest 32 |
| `BalanceHistory.GetBalanceAtTimestamp` | contracts/escrow/src/lib.rs:5257-5315 | the ring walk gives the answer of the unbounded log |
| `BalanceHistory.HistoryAnswers` | contracts/escrow/src/lib.rs:5257-5315 | Known, NoHistory and Pruned characterised on the full log, each by an if-and-only-if |
| `BalanceHistory.SnapshotWeight` | contracts/escrow/src/lib.rs:4415-4446 | the voting walk finds the balance logged at the minimum acquisition ledger, if still retained |
| `BalanceHistory.LaterSnapshotsFreeze` | contracts/escrow/src/lib.rs:4401-4463 | later snapshots leave a weight unchanged or push it out, and when they push it out |
| `BalanceHistory.FrozenExact` | contracts/escrow/src/lib.rs:4401-4463 | one more snapshot is harmless exactly when it is later than the ledger the weight is read at |
| `BalanceHistory.HoldFreezesExactly` | contracts/escrow/src/lib.rs:4401-4463 | a hold duration of at least 1 is exactly what keeps every weight safe from all snapshots taken from the dispute's ledger on |
| `EscrowDisputes.PaidOutOnce` | contracts/escrow/src/lib.rs:4113-4183 | finalisation and dispute resolution together pay a match out at most once in a run |
| `EscrowDisputes.OneDisputePerMatch` | contracts/escrow/src/lib.rs:4232-4240 | a match has at most one dispute over a whole run |
| `EscrowDisputes.OngoingMeansPending` | contracts/escrow/src/lib.rs:4204-4240 | an ongoing dispute has its match in PendingResult, a resolved one in Completed |
| `EscrowDisputes.NeverBothEnabled` | contracts/escrow/src/lib.rs:4113-4240 | in no state can a match be both disputed and finalised |
| `EscrowDisputes.BondLeavesOnce` | contracts/escrow/src/lib.rs:4574-4592 | a bond leaves the contract at most once in a run |
| `EscrowDisputes.ResolvedBondHasLeft` | contracts/escrow/src/lib.rs:4574-4592 | the bond of a resolved dispute has left in some step of the run, hence exactly once |
| `EscrowDisputes.RunKeepsDispute` | contracts/escrow/src/lib.rs:4288-4320 | the terms of a dispute never change, and nothing about a resolved one does |
| `EscrowDisputes.VotesDecide` | contracts/escrow/src/lib.rs:4514-4632 | after the window the sums of the recorded weights alone decide quorum, outcome, payout and where the bond goes |
| `EscrowDisputes.VoteWeightFrozen` | contracts/escrow/src/lib.rs:4365-4463 | from the raising of a dispute on, with a fixed positive hold duration, a voter's weight never changes; it can only lapse |
| `EscrowDisputes.BallotsAreBalances` | contracts/escrow/src/lib.rs:4401-4496 | over every run with a fixed positive hold duration, every recorded ballot weighs the voter's logged balance at snapshot ledger minus hold |
| `EscrowDisputes.TotalsAreBalances` | contracts/escrow/src/lib.rs:4482-4496 | hence both totals of a dispute are sums of balances at that one ledger |
| `EscrowContract.TransferAll` | contracts/escrow/src/lib.rs:2400-2460 | transfers in order; the first failing one fails all |
| `EscrowContract.TierIsFirst` | contracts/escrow/src/lib.rs:4835-4851 | the bond rate is that of the first tier covering the stake, or of the last tier |
| `EscrowContract.BondBasisPoints` | contracts/escrow/src/lib.rs:4835-4851 | the tier loop computes that rate |
| `EscrowContract.EscrowContract.constructor` | contracts/escrow/src/lib.rs:230-260 | a new contract is valid and empty |
| `EscrowContract.EscrowContract.CreateMatch` | contracts/escrow/src/lib.rs:1370-1613 | takes the specified creation step and lists the match as pending |
| `EscrowContract.EscrowContract.CheckDeposit` | contracts/escrow/src/lib.rs:1830-1925 | the checks of a deposit in order, the caps read from the stored counters |
| `EscrowContract.EscrowContract.DepositStake` | contracts/escrow/src/lib.rs:1826-1987 | takes the specified deposit step; on activation index, active sets and counters follow |
| `EscrowContract.EscrowContract.CancelMatch` | contracts/escrow/src/lib.rs:2365-2505 | takes the specified cancellation step with refunds and fee |
| `EscrowContract.EscrowContract.ExpireMatch` | contracts/escrow/src/lib.rs:2616-2715 | takes the specified expiry step |
| `EscrowContract.EscrowContract.PauseMatch` | contracts/escrow/src/lib.rs:2513-2558 | takes the specified pause step |
| `EscrowContract.EscrowContract.ResumeMatch` | contracts/escrow/src/lib.rs:2562-2608 | takes the specified resume step |
| `EscrowContract.EscrowContract.HeartbeatMatch` | contracts/escrow/src/lib.rs:3080-3134 | takes the specified heartbeat step |
| `EscrowContract.EscrowContract.DisputeAndRollbackMatch` | contracts/escrow/src/lib.rs:2899-3042 | records consent; with both consents refunds and cancels as specified |
| `EscrowContract.EscrowContract.SubmitResult` | contracts/escrow/src/lib.rs:2049-2186 | settles at once or puts the result on the docket as specified |
| `EscrowContract.EscrowContract.AdminResolveStalledMatch` | contracts/escrow/src/lib.rs:3164-3335 | takes the specified stall-resolution step |
| `EscrowContract.EscrowContract.ClaimVestedPayout` | contracts/escrow/src/lib.rs:5935-6158 | takes the specified claim step |
| `EscrowContract.EscrowContract.FinalizeMatch` | contracts/escrow/src/lib.rs:4113-4183 | takes the specified finalisation step |
| `EscrowContract.EscrowContract.DisputeOracleResult` | contracts/escrow/src/lib.rs:4196-4353 | takes the specified dispute step, bond and quorum included |
| `EscrowContract.EscrowContract.VoteOnDispute` | contracts/escrow/src/lib.rs:4365-4504 | takes the specified voting step, the weight read from the ring |
| `EscrowContract.EscrowContract.ResolveDisputeByVote` | contracts/escrow/src/lib.rs:4514-4632 | takes the specified resolution step |
| `EscrowContract.EscrowContract.SetMatchState` | contracts/escrow/src/lib.rs:1357-1368 | moves a match between two state lists and leaves all lists exact |
| `EscrowContract.ActiveAdded` | contracts/escrow/src/lib.rs:3599-3619 | adding an activated match for both players keeps active sets and counters equal to the live matches of the map |
| `EscrowContract.ActiveRemoved` | contracts/escrow/src/lib.rs:3622-3638 | removing a finished match for both players keeps them so |
| `EscrowInvariants.ReleaseBothSpec` | contracts/escrow/src/lib.rs:5177-5193 | releasing a match takes its stake off the counter of its two players and of nobody else |
| `EscrowContract.EscrowContract.SetConfig` | contracts/escrow/src/lib.rs:336-414 | a change of settings takes the configuration step and leaves index, active sets and rings exact |
| `EscrowContract.EscrowContract.RecordPlayerSnapshot` | contracts/escrow/src/lib.rs:5203-5236 | writes the next ring slot, in step with the log |
| `EscrowContract.EscrowContract.GetMatchesPage` | contracts/escrow/src/lib.rs:5408-5441 | a page is the slice of the filtered match map |
| `EscrowContract.EscrowContract.GetPlayerBalance` | contracts/escrow/src/lib.rs:5257-5315 | the unbounded log's answer about a past balance |
| `EscrowModel.TimeoutLedgers` | contracts/escrow/src/lib.rs:3532-3537 | the timeout in ledgers is the least number that covers the seconds |
| `EscrowModel.NewestAt` | contracts/escrow/src/lib.rs:5275-5300 | the newest log entry at or before a ledger |
| `VersionPrinter.WriteDecimal` | contracts/escrow/src/lib.rs:6190-6209 | digit loop and in-place reverse append the decimal representation to the buffer |
| `VersionPrinter.GetContractVersion` | contracts/escrow/src/lib.rs:6173-6188 | the 20-byte buffer holds the version text, at most 12 bytes of it used |
| `VersionPrinter.RoundTrip` | contracts/escrow/src/lib.rs:6173-6209 | decoding the printed text gives the version back |
| `VersionPrinter.Injective` | contracts/escrow/src/lib.rs:6173-6209 | distinct versions print differently |
| `VersionPrinter.ReverseRange` | contracts/escrow/src/lib.rs:6207-6207 | reverses one range of the buffer and nothing else |
| `Reconciliation.Poller.Enqueue` | oracle-service/src/queue.rs:162-175 | appends a fresh entry exactly when the match is not queued, else changes nothing |
| `Reconciliation.Poller.Reconcile` | oracle-service/src/poller.rs:346-473 | interrupted after any write, with failing queue writes and cursor saves, the queue is that of an uninterrupted pass over a prefix no shorter than the saved cursor; uninterrupted, it completes and clears the cursor unless the clear fails |
| `Reconciliation.Poller.ReconcileWithRestarts` | oracle-service/src/poller.rs:346-473 | any sequence of crashes and restarts, with failing queue writes, cursor saves and cursor clears, ends with the queue of one full pass, existing entries untouched |
| `Reconciliation.ScanHolds` | oracle-service/src/poller.rs:346-473 | a full pass keeps the old queue as a prefix and adds exactly the active, reachable, unresolved, not dead-lettered matches whose queue write succeeds |
| `Reconciliation.ScanOnce` | oracle-service/src/queue.rs:162-175 | no match is queued twice |
| `Reconciliation.ScanJoin` | oracle-service/src/poller.rs:346-473 | a pass over two stretches is the pass over their concatenation |
| `Reconciliation.RecordFailure` | oracle-service/src/queue.rs:77-100 | the delay is min(base * 2^(attempt-1), 3600) in unbounded arithmetic, and an entry is exhausted exactly at the retry limit |
| `Reconciliation.BackoffGrows` | oracle-service/src/queue.rs:91-96 | delays never shrink and stay within an hour |

## Left out

- Multi-token matches (second token, conversion rate, oracle swap): every match stakes one token.
- `deposit_batch`, `submit_result_batch`, `bulk_expire_matches`, `admin_recover_match`: they swallow failures instead of rolling back.
- The escrow contract's own oracle-consensus path, brackets, per-match snapshots, player and platform statistics, fee tiers, preferred payout tokens: would add easy members.
- The deposit reentrancy guard: the token ledger of the model does not call back.
- Admin, oracle and setting setters: one configuration step with the bounds the setters check.
- Authentication, events, storage lifetimes, evidence hash format, upgrade scheduling: opaque or left to the caller; a hash is a yes-or-no parameter, a rollback reason its length.
- Counters at their ceilings: i128 sums, u64 indices and timestamps are unbounded. Overflow checks on registered stakes, pots, fees, bonds, u32 deadlines and u32 window counts are modelled, the product of a percentage slash is not.
- The oracle contract's token swap and the cache lifetime check on reads.
- Dead-letter capacity, concurrent poller tasks, HTTP fetching and the rest of the service.
- OracleContract.OracleContract.SubmitOracleResult: promises the specified step only while the eligibility version is below the u32 maximum, because the code's saturated version keeps stale counts in use.
- EscrowContract.EscrowContract.DepositStake: reads both caps before writing, where the code writes first and relies on the rollback of the transaction.
- Reconciliation.RecordFailure: the entry is a value, so the update of the stored entry in place is not captured.
- Reconciliation.Poller.Reconcile: which queue writes, cursor saves and cursor clears fail is fixed for a cycle of passes, not redrawn at every attempt.
- OracleInvariants.SlashAmountBounds: the product stake * bps is unbounded; in the code it is an i128 and traps, so a losing voter with a stake above i128::MAX / 1000 makes a finalising transaction fail, and one above i128::MAX / 10000 an equivocation.
- OracleContract.OracleContract.SlashBps: does not model that trap, in which the transaction fails as a whole.
- Finalisability.FinalisableExactly: because of the same trap, true of the code while no stake exceeds i128::MAX / 1000.
- Finalisability.UnflaggedCanFinalise: likewise.
- OracleUsage.DeactivatedWasSlow: fewer than 2^32 recorded times, each a u64, so that the counters of the code are exact.
- RateLimiter.Admit: a sum of counts above the u32 maximum, which traps in the code, is reported as the same refusal as an exceeded limit.
