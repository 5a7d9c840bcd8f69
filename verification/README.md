# PayStream contracts, modelled and proved

PayStream lets an employer lock a deposit in a contract that pays an employee by the second. This project
models the stream contract together with the token ledger it pays from, the off-chain balance calculator that
recomputes the same accrual from pause history, and three smaller components: the CSV export, the migration
runner and the API key service. Theorems are about all inputs, all calls and all runs of calls that the contract's own
address does not sign; where one needs more, its row says so.

How it is organised:

- `Common`, `MapSums`: machine integers, addresses, panics as `None`, sums over maps.
- `Token`, `TokenEffects` and `TokenContract`: the token ledger as a value, what each call does to it, and the contract as
  a class that rewrites stored maps.
- `Streams`, `Snapshot`: a stream, its status machine, creation checks, the claimable amount, the balance snapshot.
- `World`: the whole state of stream contract plus token ledgers, and one function per entry point. An operation
  on a stream is a decision (`Decide`) that yields an effect (new stream, transfers, booked fee, pause event),
  which `Save` carries out. `Exec` is one attempted call; a panic is `None` and changes nothing; `RunTo` is a run:
  a list of attempted calls, among them clock ticks of one second and token calls by outsiders.
- `StreamContract`: the same entry points as a class whose methods load, assign, pay and save step by step, each
  proved to do what `World` says; the batch method keeps the source's hoisted reads and single index write and is
  proved equal to creating the streams one by one.
- `Steps`: what an accepted call does to one stream in plain arithmetic, and the invariant of every run.
- `Escrow`, `Solvency`, `Fees`: where the money is, when the escrow covers its streams and payouts cannot be refused,
  and what the booked fees are worth.
- `Payouts`, `Terms`: who is paid what by each call, on the token ledgers; who may call what and when, and on what
  terms a stream is stored.
- `Gaps`, `Witnesses`: where code and documentation part, for all inputs, and short runs in which they do.
- `Lifecycle`, `Accrual`, `Lifetime`: life cycle, cooldown, lazy accrual since the last restart, agreement with the
  service, lifetime earnings, schedule independence.
- `Indexes`: what the employer and employee indexes list, and when that is no longer the current party.
- `Control`, `ControlContract`, `Rulings`, `Decisions`, `ControlRuns`: configuration, governance and multisig; `Rulings`
  says call by call what each accepts and changes, `Decisions` what an executed decision proves about the past.
- `BalanceService`, `Calendar`, `Periods`, `Csv`, `Migration`, `ApiKeys`: the off-chain parts.

The code is followed where it departs from its own documentation. Each departure has its exact condition and, where a
run shows it, a concrete one in `Witnesses`:

- A paused stream keeps accruing in `claimable_amount` until it is resumed (`PausedAccrualFrozenIff`,
  `PausedStreamAccrues`), and closing it pays for the pause (`ClosingPaysForThePause`).
- A resume after the stop time loses seconds that were earned (`ResumeKeepsAccrualIff`, `LateResumeDisagrees`).
- `update_rate` is documented to credit earnings at the old rate. It writes them off as withdrawn without paying
  anybody, and they stay in the contract with no stream to own them (`LedgerIdentity`, `RateChangeWritesOff`); before
  the cliff it drops them all, and at the deposit cap the excess (`RateChangeCrystallisesIff`, `EarlyRateChangeDrops`,
  `LifetimeIsExactIff`).
- `get_stream` closes a stream whose earned tokens then stay in the contract (`GetForfeitsTheRest`, `ReadForfeits`).
- A booked fee has already been sent when it is collected (`BookedIsAlreadySent`, `CollectionCoveredIff`,
  `FirstCollectionPaysTwice`).
- `transfer_from` accepts amounts below zero, and then takes tokens from its recipient, the contract included
  (`NegativePullIntoContract`, `OutsideKeepsCoveredIff`, `NegativePullUncovers`).
- A governance fee of 100 per cent or more blocks paying withdrawals (`GovernanceFeeBlocksIff`,
  `PassedFeeBlocksWithdrawal`).
- The ten-year duration check looks at 64 bits only (`DurationCapTruncates`), though no deposit that a sound token can
  fund is long enough for that (`AcceptedDurationIsCapped`).
- `reclaim_expired` takes a paused stream to exhausted outside the transition table (`StatusChangesAreTabled`,
  `ReclaimLeavesTheTable`).
- Hand-overs of a stream leave both indexes as they were, and the limit per employer counts ended and handed-over
  streams too (`IndexFollowsPartyIff`, `LimitCountsAllCreated`, `IndexGoesStale`).
- The CSV printer quotes cells with a comma, a quote or a line feed only, so an unquoted carriage return departs from
  the grammar in section 2 of RFC 4180, as does any character outside printable ASCII and line breaks (`BuildCsv`,
  `PrintableConformsIff`).
- A rolled-back migration still counts as applied (`Runner.Rollback`).

The token ledger refuses transfers that are not positive, so a creation whose fee rounds to zero is rejected
(`CreateAcceptedIff`), and arithmetic that overflows panics, as the release profile of the workspace says.

Assumptions: a call is signed by the address it names; the contract's own address signs nothing; a panic undoes the
whole call. The identity of a token contract is its address, and the token contracts next to a fresh stream contract
are arbitrary: the ledger identity holds whatever their balances and allowances, and whatever outsiders call on them.
The availability theorems add that the ledgers start sound and that every accepted outside call is one of those that
keep its ledger sound (`Token.SoundStep` says which).

## Model

| member | source | states |
|---|---|---|
| Escrow.LedgerIdentity | contracts/stream/src/lib.rs:193-606 | in every run, per token and beside any ledgers: escrow balance plus fees collected plus what outside calls pulled out equals what live streams may still draw plus what is stranded; none of these totals ever shrinks, and stranding comes only from rate changes, closing reads, fees without an outside recipient, payments to the contract itself and gifts |
| Escrow.EscrowStep | contracts/stream/src/lib.rs:193-606 | one attempted call of any kind keeps that identity, for every token at once |
| Escrow.OpBalances | contracts/stream/src/lib.rs:343-606 | what an operation transfers is exactly the change in what the stream may still draw, plus what it strands |
| Escrow.CreateEachStep | contracts/stream/src/lib.rs:262-341 | a batch brings into the escrow exactly the net deposits it pledges |
| Escrow.OutsideCall | contracts/token/src/lib.rs:69-204 | an accepted outside token call changes the escrow balance by exactly its signed flow, and lowers it exactly when it pulls a negative amount in, pulls a positive amount out, or burns what the contract holds |
| Escrow.OutsideAllowances | contracts/token/src/lib.rs:86-135 | an outside call opens an allowance over the escrow exactly when it pulls out of the contract an amount below its signer's own allowance |
| Escrow.NothingPulled | contracts/token/src/lib.rs:126-204 | beside tokens that give nobody an allowance over the contract, a run without negative pulls on it pulls nothing out of it and never opens such an allowance |
| Solvency.CoveredIff | contracts/stream/src/lib.rs:398-409 | after any run the escrow covers all live streams exactly when collected fees and outside pulls together do not exceed what is stranded |
| Solvency.CoveredAlways | contracts/stream/src/lib.rs:193-606 | so it always does when booked fees are never collected and no negative amount is pulled on the contract |
| Solvency.OutsideKeepsCoveredIff | contracts/token/src/lib.rs:69-204 | one accepted outside call leaves a covered escrow covered exactly when it is of no draining kind, told by sign, sender and recipient, or takes no more than the surplus |
| Solvency.PayoutsAvailable | contracts/stream/src/lib.rs:343-496 | after any run that keeps the tokens sound, fee collections and pulls included, a live stream whose escrow is covered can be cancelled by its employer, and a withdrawal is accepted exactly under conditions that do not mention money |
| Solvency.PayoutsAlwaysAvailable | contracts/stream/src/lib.rs:343-496 | the same without the condition on coverage for runs with no fee collection and no negative pull on the contract |
| Solvency.WithdrawAcceptedIff | contracts/stream/src/lib.rs:343-396 | beside sound tokens and in a covered state, a withdrawal is accepted if and only if caller, pause, status and cooldown allow it and the fee is below 100 per cent or nothing is due: it never fails for lack of funds or by overflow |
| Solvency.CancelAccepted | contracts/stream/src/lib.rs:470-496 | beside sound tokens and in a covered state, a live stream's cancellation by its employer cannot be refused |
| Solvency.SettleTransfers | contracts/stream/src/lib.rs:479-491 | cancel and reclaim pay out, in positive transfers, exactly what the stream may still draw |
| Solvency.WithdrawTransfers | contracts/stream/src/lib.rs:366-390 | the transfers of a paying withdrawal are all positive exactly when the fee is below 100 per cent, and then stay within what is owed |
| Solvency.ReadyStep | contracts/stream/src/lib.rs:193-606 | an attempted call keeps the token ledgers sound exactly when it is not an accepted pull that leaves its recipient in debt or an accepted initialize naming another than the holder of the whole supply; the contract's own calls always do |
| Solvency.AcceptedDurationIsCapped | contracts/stream/src/validate.rs:45-47 | beside sound tokens every accepted creation streams for ten years at most: a deposit too long for the 64-bit cast cannot be paid in |
| Solvency.CreateAcceptedIff | contracts/stream/src/lib.rs:193-260 | beside sound tokens a creation is accepted exactly when the checks on its terms pass, the employer holds the deposit, a fee that is due neither rounds to zero nor reaches 100 per cent, and an id is left |
| Fees.BookedIsAlreadySent | contracts/stream/src/lib.rs:382-409 | in every run, per token: fee balance plus all fees collected plus bookings dropped on overflow equals the levies that withdrawals have already transferred |
| Fees.CollectionIsSecondPayment | contracts/stream/src/lib.rs:398-409 | every accepted collection, with all earlier ones, stays within levies already transferred: it pays a second time |
| Fees.LevyTransfers | contracts/stream/src/lib.rs:366-390 | a withdrawal makes at most one levy transfer, to the configured recipient and before the payment, and books exactly that |
| Fees.LevyArrives | contracts/stream/src/lib.rs:382-386 | the levy raises its recipient's token balance by exactly the amount booked, unless that is the contract or the employee |
| Payouts.OperationPays | contracts/stream/src/lib.rs:343-606 | an accepted operation changes the balance of every account in every token by exactly its share: a withdrawal pays its caller what is owed less the fee and the recipient, if any, the fee; a cancellation or reclaim pays the employee what is owed and the stored employer the rest of the deposit; a top-up takes from its caller; nothing else moves money |
| Payouts.WithdrawPaysEmployee | contracts/stream/src/lib.rs:366-390 | the employee who calls gets what is owed less the fee, whether there is a fee, a recipient or neither, and no account but the contract, the employee and the recipient changes |
| Payouts.ClosingPaysBoth | contracts/stream/src/lib.rs:470-606 | only the stored employer can close; between distinct parties the employee gets what is owed, the employer the rest of the deposit, and no third balance moves |
| Payouts.CreationPays | contracts/stream/src/lib.rs:219-234 | a creation takes the whole deposit from the employer, sends the fee to its recipient if there is one and the rest to the contract, and moves no other balance |
| Payouts.BatchPays | contracts/stream/src/lib.rs:283-312 | a batch moves, per account and token, the sum of what its creations move one by one |
| Payouts.CollectionPays | contracts/stream/src/lib.rs:398-409 | only the administrator collects, at most what is booked, paid to the recipient if there is one and else to itself; books and escrow fall by that amount and nothing else changes |
| Payouts.CollectionAcceptedIff | contracts/stream/src/lib.rs:398-409 | beside sound tokens a collection is accepted exactly under those conditions and when the contract holds the amount |
| Payouts.OutsideTouchesOneLedger | contracts/token/src/lib.rs:35-204 | an outside token call changes the ledger it names, as the token contract says, and nothing of the stream contract or of any other token |
| Terms.DecidesIff | contracts/stream/src/lib.rs:343-606 | money apart, each operation is accepted if and only if its caller may call it (employee, employer, delegate or the address of the open offer) and stream and clock allow it |
| Terms.AcceptedMeansAllowed | contracts/stream/src/lib.rs:343-606 | whatever operation is accepted in any well-formed world was called by one of its permitted callers and in order |
| Terms.RepliesTell | contracts/stream/src/lib.rs:343-606 | a withdrawal returns what its caller was paid, get_stream the stream as stored afterwards, other operations nothing |
| Terms.HandOverNeedsOffer | contracts/stream/src/lib.rs:507-523 | in every run a hand-over is accepted exactly when the last offer of the stream not yet accepted was to that address |
| Terms.CreationHasTerms | contracts/stream/src/lib.rs:236-259 | an accepted creation returns the next id and stores under it exactly one stream with the employer, employee, token, rate, stop time, cliff and cooldown asked for and the deposit less the fee, and its terms passed the checks |
| Terms.BatchHasTerms | contracts/stream/src/lib.rs:314-340 | an accepted batch returns consecutive ids in order, and under each the stream with its own terms and no cooldown |
| Terms.CreationAcceptedIff | contracts/stream/src/lib.rs:193-260 | beside sound tokens, every condition of an accepted creation spelled out, and no other condition |
| Terms.CooldownAsAsked | contracts/stream/src/lib.rs:247-376 | two paying withdrawals are at least the cooldown apart that the creating call asked for, and so is the first from the creation, except at the end of u64 time |
| Gaps.CollectionCoveredIff | contracts/stream/src/lib.rs:398-409 | after any run, a collection leaves the escrow covered exactly when what is stranded makes up for it and for all that left before, or the amount returns to the contract itself; either way it had been sent already |
| Gaps.CollectionLeavesEscrowShort | contracts/stream/src/lib.rs:383-409 | with nothing stranded, collected or pulled out before, a collection of fees already sent leaves the escrow short by exactly its amount |
| Gaps.NegativePull | contracts/token/src/lib.rs:126-135 | any pull of a negative amount between two accounts runs backwards, raises its signer's allowance, and is accepted exactly when neither owner nor allowance is further below zero and nothing overflows |
| Gaps.NegativePullSoundIff | contracts/token/src/lib.rs:126-135 | it keeps a sound ledger sound exactly when the recipient held that much |
| Gaps.NegativePullIntoContract | contracts/token/src/lib.rs:126-135 | pulled on the contract by a signer out of debt, it lowers the escrow by exactly that amount and changes nothing else of the contract |
| Gaps.NegativePullOutOfContract | contracts/token/src/lib.rs:126-135 | pulled out of the contract it raises its signer's allowance over the escrow by that amount |
| Gaps.GovernanceFeeBlocksIff | contracts/stream/src/storage.rs:330-337 | beside sound tokens and in a covered state, after a passed fee proposal of any value is executed, an entitled employee's paying withdrawal is accepted exactly when its low 32 bits are below 100 per cent |
| Gaps.RateChangeCrystallisesIff | contracts/stream/src/lib.rs:525-545 | a rate change writes off exactly what had accrued if and only if nothing had, or the cliff is past and the deposit pays for all of it, otherwise less; it never transfers anything and leaves nothing claimable |
| Gaps.GetForfeitsTheRest | contracts/stream/src/lib.rs:547-571 | get_stream changes a stream exactly when all its deposit is earned past the stop time, and then nothing of the rest can ever be claimed |
| Gaps.ClosingPaysForThePause | contracts/stream/src/lib.rs:470-606 | cancelling or reclaiming a paused stream past its cliff pays the paused seconds up to the stop time as well, as far as the deposit goes |
| Witnesses.EarlyRateChangeDrops | contracts/stream/src/lib.rs:525-545 | two runs that differ in a rate change to the same rate before the cliff owe 1000 and 500 at the cliff |
| Witnesses.RateChangeWritesOff | contracts/stream/src/lib.rs:525-545 | a run in which 200 earned tokens count as withdrawn and nobody is paid |
| Witnesses.IndexGoesStale | contracts/stream/src/lib.rs:507-523 | a run in which a handed-over stream stays listed under the old employer only |
| Witnesses.PausedStreamAccrues | contracts/stream/src/storage.rs:268-296 | a run in which a paused stream's claimable amount grows from 200 to 300 |
| Witnesses.LateResumeDisagrees | contracts/stream/src/lib.rs:451-468 | a run in which a late resume makes the contract owe 100 and the balance service report more |
| Witnesses.ReclaimLeavesTheTable | contracts/stream/src/lib.rs:577-606 | a run in which a paused stream becomes exhausted and 30 paused seconds are paid |
| Witnesses.ReadForfeits | contracts/stream/src/lib.rs:547-571 | a run in which get_stream makes 600 claimable tokens unpayable |
| Witnesses.FirstCollectionPaysTwice | contracts/stream/src/lib.rs:383-409 | a run in which the collector receives the same fee twice and the escrow ends two tokens short |
| Witnesses.NegativePullUncovers | contracts/token/src/lib.rs:126-135 | a run in which a negative pull empties the contract under a live stream |
| Witnesses.PassedFeeBlocksWithdrawal | contracts/stream/src/storage.rs:330-337 | a run in which a fee proposal passed by one vote blocks a withdrawal of 600 owed tokens |
| StreamContract.Contract.Perform | contracts/stream/src/lib.rs:85-790 | any one call on the imperative contract does exactly what the specification says, or changes nothing |
| StreamContract.Contract.Drive | contracts/stream/src/lib.rs:85-790 | the imperative contract driven through any list of attempted calls ends in the world that the theorems about runs speak about |
| StreamContract.Contract.CreateStream | contracts/stream/src/lib.rs:193-260 | the imperative entry point does exactly the specified creation or changes nothing |
| StreamContract.Contract.CreateStreamsBatch | contracts/stream/src/lib.rs:262-341 | the optimised batch succeeds exactly when creating the same streams one by one with cooldown 0 all succeed, and then leaves the same ids, streams, balances and indexes |
| StreamContract.Contract.ExtendDraft | contracts/stream/src/lib.rs:283-334 | one round of the batch loop, against the values read up front, is one create_stream |
| StreamContract.ExtendedIsNext | contracts/stream/src/lib.rs:283-340 | the batch draft with its single index write tracks the one-by-one run, and a failing round rejects the whole list |
| StreamContract.LimitCheckedUpFront | contracts/stream/src/lib.rs:271-273 | a list that passes the up-front limit check never meets the per-stream limit at any of its creations, and one that fails it is rejected one by one too |
| StreamContract.Contract.TakeDeposit | contracts/stream/src/lib.rs:219-234 | deposit split into net and fee, both moved, or nothing |
| StreamContract.Contract.Withdraw | contracts/stream/src/lib.rs:343-396 | the imperative withdrawal ends in exactly the specified world and reply |
| StreamContract.Contract.DueNow | contracts/stream/src/lib.rs:343-360 | the checks before any write, and the gross amount they let through |
| StreamContract.Contract.PayInOrder | contracts/stream/src/lib.rs:382-390 | transfers made one after another are the specified list of transfers, all or nothing |
| StreamContract.Contract.WithdrawProtocolFees | contracts/stream/src/lib.rs:398-409 | whole new state of a fee collection |
| StreamContract.Contract.TransferStream | contracts/stream/src/lib.rs:411-418 | whole new state; the indexes stay as they were |
| StreamContract.Contract.TopUp | contracts/stream/src/lib.rs:420-434 | whole new state of a top-up by employer or delegate |
| StreamContract.Contract.PauseStream | contracts/stream/src/lib.rs:436-449 | whole new state, with the pause event recorded |
| StreamContract.Contract.ResumeStream | contracts/stream/src/lib.rs:451-468 | whole new state, with the accrual origin shifted and the event recorded |
| StreamContract.Contract.CancelStream | contracts/stream/src/lib.rs:470-496 | whole new state of a cancellation |
| StreamContract.Contract.SetDelegate | contracts/stream/src/lib.rs:499-505 | whole new state |
| StreamContract.Contract.ProposeEmployerTransfer | contracts/stream/src/lib.rs:507-512 | whole new state |
| StreamContract.Contract.AcceptEmployerTransfer | contracts/stream/src/lib.rs:514-523 | whole new state; the indexes stay as they were |
| StreamContract.Contract.UpdateRate | contracts/stream/src/lib.rs:528-545 | whole new state of a rate change |
| StreamContract.Contract.GetStream | contracts/stream/src/lib.rs:547-571 | whole new state and the stream returned |
| StreamContract.Contract.ReclaimExpired | contracts/stream/src/lib.rs:577-606 | whole new state of a reclaim |
| Steps.DecideMeaning | contracts/stream/src/lib.rs:343-606 | every accepted operation turns a well-formed stream into what plain arithmetic says, field by field |
| Steps.BecomesOk | contracts/stream/src/lib.rs:343-606 | no operation breaks a stream's bounds or changes its id, token, cooldown, stop, cliff or start |
| Steps.StepMeaning | contracts/stream/src/lib.rs:193-606 | seen from one stream, every call creates it, operates on it or leaves it exactly as it was |
| Steps.CreateOneMeaning | contracts/stream/src/lib.rs:236-257 | a creation adds one fresh active stream under a new id and touches no other |
| Steps.CreateEachMeaning | contracts/stream/src/lib.rs:283-334 | a batch only adds fresh streams |
| Steps.ReachableStreamsAreSafe | contracts/stream/src/storage.rs:268-296 | in every reachable state withdrawn plus claimable stays within the deposit, and neither the claimable amount nor any u32 fee on it overflows at any u64 time |
| Streams.ClaimableIsOwed | contracts/stream/src/storage.rs:268-296 | on a well-formed stream claimable_amount is the plain amount owed and its checked multiplication cannot fail |
| Streams.ClaimableInPlain | contracts/stream/src/storage.rs:268-296 | the claimable amount of a well-formed stream, written out: nothing when ended or before the cliff, else the rate for each second from the accrual origin to now or the stop time, capped by the deposit |
| Streams.PausedAccrualFrozenIff | contracts/stream/src/storage.rs:268-296 | a paused stream, before its cliff or after, stops accruing, as documented, exactly when its stop time is not after the pause, its deposit is fully earned, or time ends at the pause |
| Streams.DurationCapTruncates | contracts/stream/src/validate.rs:45-47 | the duration cap is exact for 64-bit quotients; at every legal rate some over-long stream passes |
| Streams.TerminalMeansStuck | contracts/stream/src/state_machine.rs:28-42 | terminal states are exactly those without an outgoing transition |
| Snapshot.SnapshotMeaning | contracts/stream/src/balance.rs:38-87 | vested and unvested split the deposit, vested is withdrawn plus claimable, and every field is tied to the stream; on active streams past the cliff the snapshot agrees with the contract |
| Snapshot.SnapshotInPlain | contracts/stream/src/balance.rs:73-87 | the snapshot's claimable amount written out; it is nothing while paused |
| Snapshot.RemainingInPlain | contracts/stream/src/balance.rs:92-109 | for every live stream the remaining seconds are what is neither drawn nor claimable, its low 64 bits, at the current rate |
| Snapshot.RemainingSecondsExact | contracts/stream/src/balance.rs:92-109 | for an active stream without a stop time whose remainder fits 64 bits, remaining_seconds is k exactly when the claimable amount grows by the full rate for k more seconds and second k + 1 takes the last, smaller part |
| Lifecycle.StatusChangesAreTabled | contracts/stream/src/state_machine.rs:28-37 | every status change of every run is in the table, except paused to exhausted by reclaim_expired |
| Lifecycle.EndedStaysEnded | contracts/stream/src/state_machine.rs:40-49 | a cancelled or exhausted stream keeps status, deposit, withdrawn and rate for good and has nothing claimable at any time |
| Lifecycle.CooldownSpacing | contracts/stream/src/lib.rs:352-376 | two paying withdrawals from a stream are a cooldown apart whatever happens in between, except at the end of u64 time |
| Lifecycle.LaterInRun | contracts/stream/src/lib.rs:459-462 | the accrual origin never moves backwards in any run |
| Lifecycle.ScheduleIndependence | contracts/stream/src/lib.rs:343-434 | over any stretch in which an active stream sees withdrawal attempts, top-ups and hand-overs, but no pause, rate change, closing read or settlement, and other streams see anything, what was drawn plus what is claimable later equals what the untouched stream with the final deposit would owe |
| Lifetime.ScheduleIndependentIff | contracts/stream/src/lib.rs:343-545 | two runs in which a stream sees the same seconds, pauses, resumes, top-ups and rate changes, whatever withdrawals are attempted, give it the same lifetime earnings; and if one loses nothing, the other realises the same exactly when it loses nothing either or the deposit is fully earned |
| Lifetime.LifetimeIsExactIff | contracts/stream/src/storage.rs:268-296 | in every run, at every active state past the cliff, withdrawn plus claimable never exceeds the rate in force at each credited second since creation, added up and capped by the deposit, and equals it if and only if no late resume and no rate change ever lost anything, or the deposit is fully earned |
| Lifetime.LifetimeInRun | contracts/stream/src/lib.rs:343-545 | for paused streams and before the cliff too, withdrawn plus the rate times the accounted seconds keeps up with the lifetime earnings exactly while nothing is lost |
| Lifetime.MoveStanding | contracts/stream/src/lib.rs:343-545 | of all operations that leave a stream live, only late resumes and rate changes that do not crystallise lower what it stands for, and none raises it |
| Lifetime.OutlineInRun | contracts/stream/src/lib.rs:343-545 | deposit, rate, stop time and lifetime earnings of a live stream do not depend on withdrawals |
| Indexes.IndexesListCreations | contracts/stream/src/storage.rs:220-255 | in every run an employer's index lists in ascending order exactly the streams it created, and an employee's index exactly those it was first named on |
| Indexes.IndexFollowsPartyIff | contracts/stream/src/lib.rs:411-523 | a stream is listed under its current employer, or employee, exactly when it was never handed over or last handed back to the first one |
| Indexes.LimitCountsAllCreated | contracts/stream/src/lib.rs:203-210 | the length of an employer's index is the number of streams it ever created, and at the limit a further creation is rejected however many have ended |
| Accrual.LazyAccrualRefinesMeter | contracts/stream/src/storage.rs:268-296 | counting from the last paying withdrawal or rate change: an active stream past the cliff is never owed more than crediting active seconds one by one gives, and exactly that if and only if no resume since then lost anything or the deposit is fully earned; what a rate change itself drops is in `LifetimeIsExactIff` |
| Accrual.MeterInRun | contracts/stream/src/lib.rs:436-468 | over every run the stored fields account for exactly the seconds paid for since the last paying withdrawal or rate change if and only if no resume since then lost any |
| Accrual.ResumeKeepsAccrualIff | contracts/stream/src/lib.rs:451-468 | a resume keeps the accrued seconds exactly when it is by the stop time, in the second of the pause, or nothing had accrued |
| Accrual.NoResumeLossWithoutStop | contracts/stream/src/lib.rs:451-468 | without a stop time no resume ever loses accrued seconds |
| Accrual.HistoryInRun | contracts/stream/src/storage.rs:353-363 | the recorded pause history is time-ordered and alternating and ends in a pause exactly while the stream is paused |
| Accrual.ServiceMatchesMeter | services/balance/balance.js:76-124 | at every live state past the cliff the service reports exactly the rate times the paid seconds, capped |
| Accrual.ImplementationsAgree | services/balance/balance.js:76-124 | fed the unshifted time of the last paying withdrawal or rate change and the recorded history, the service is never below the contract on an active stream, and both agree if and only if no resume since then lost anything or the deposit is fully earned |
| Decisions.ExecutedProposalWasDecided | contracts/stream/src/lib.rs:658-701 | an executed proposal was opened with those terms at least two days earlier, more addresses have an accepted vote for it than one against it, nobody is on both sides, and it is executed once in the whole run |
| Decisions.CountsAreVotes | contracts/stream/src/lib.rs:676-684 | in every run votes_for is the number of addresses with an accepted vote for the proposal, votes_against the number with one against it |
| Decisions.VotersVoted | contracts/stream/src/lib.rs:676-684 | those sets hold exactly the addresses for which some event of the run is an accepted vote with that choice |
| Decisions.TallyDecides | contracts/stream/src/storage.rs:339-347 | an accepted tally passes a proposal exactly when more addresses have voted for it than against it, and rejects it otherwise |
| Decisions.EveryProposalWasOpened | contracts/stream/src/lib.rs:658-674 | a stored proposal keeps the terms and timelock of the call that opened it |
| Decisions.AlwaysOk | contracts/stream/src/lib.rs:676-690 | in every run votes for and against add up to the number of distinct voters, and approvals are distinct |
| Decisions.FiredOpWasApproved | contracts/stream/src/lib.rs:734-787 | a fired operation has at least the current threshold of distinct approvals, each by an admin configured when approving, the last before expiry, and fires once whatever is reconfigured |
| Decisions.EveryApprovalWasGiven | contracts/stream/src/lib.rs:734-770 | every recorded approval goes back to an accepted call by an admin configured then |
| Rulings.AcceptedIff | contracts/stream/src/lib.rs:87-787 | each administrative call is accepted exactly when administrator, nonce, range, vote, timelock, threshold or expiry conditions of its own, written out, hold |
| Rulings.ConfigMeaning | contracts/stream/src/lib.rs:87-174 | every field of the configuration after any accepted call: what moves the pause flag (an emergency stop that reaches its threshold among it), what a proposal on each parameter sets, and which calls consume the nonce |
| Rulings.OfficesMeaning | contracts/stream/src/lib.rs:87-174 | administrator, pending administrator, fee recipient, allowed tokens and multisig after any accepted call |
| Rulings.OpsMeaning | contracts/stream/src/lib.rs:734-787 | an approval adds one name, and the operation fires with exactly the approval that reaches the threshold; a new one carries its proposer's approval and expires after a week |
| Rulings.ProposalsMeaning | contracts/stream/src/lib.rs:658-701 | every proposal after any accepted call, field by field |
| Rulings.NoncesAreUsedOnce | contracts/stream/src/lib.rs:105-160 | in every run accepted calls that carry a nonce carry strictly increasing ones, so none can be replayed |
| Rulings.NonceCounts | contracts/stream/src/lib.rs:105-160 | the stored nonce is the number of such calls accepted so far |
| Rulings.FeeIsCapped | contracts/stream/src/lib.rs:142-149 | in every run the fee stays within one per cent unless a fee proposal has been executed |
| Rulings.AdminTookOffice | contracts/stream/src/lib.rs:87-103 | in every run the administrator is the last to have initialised or accepted an offer |
| Rulings.LimitsInForce | contracts/stream/src/storage.rs:330-337 | in every run the minimum deposit and the limit per employer are the defaults or what the administrator or a proposal last set |
| ControlRuns.ControlProjection | contracts/stream/src/lib.rs:87-174 | every run of the whole contract is, for its administration, a run of the administrative calls alone |
| ControlContract.Desk.SetProtocolFee | contracts/stream/src/lib.rs:142-149 | whole new state; the cap of one per cent, the nonce and the admin are checked first |
| ControlContract.Desk.RemoveAllowedToken | contracts/stream/src/storage.rs:392-401 | the loop copies exactly the other tokens, in order |
| ControlContract.Desk.ConfigureMultisig | contracts/stream/src/lib.rs:721-730 | whole new state |
| ControlContract.Desk.Drive | contracts/stream/src/lib.rs:87-787 | the imperative administration driven through any list of ticks and calls ends where the theorems about decisions say |
| ControlContract.Desk.ProposeParameter | contracts/stream/src/lib.rs:658-674 | whole new state |
| ControlContract.Desk.Vote | contracts/stream/src/lib.rs:676-684 | whole new state |
| ControlContract.Desk.Tally | contracts/stream/src/storage.rs:339-347 | whole new state |
| ControlContract.Desk.ExecuteProposal | contracts/stream/src/lib.rs:692-701 | whole new state, with the casts of apply_proposal |
| ControlContract.Desk.MultisigPropose | contracts/stream/src/lib.rs:734-753 | whole new state |
| ControlContract.Desk.MultisigApprove | contracts/stream/src/lib.rs:756-787 | whole new state, firing at the threshold |
| Token.SupplyConserved | contracts/token/src/lib.rs:35-204 | in every run that initialises once and pulls no negative amount, the balances add up to the supply, the cap holds and nobody is in debt |
| Token.HeldTracksSupply | contracts/token/src/lib.rs:69-204 | every call except initialize moves the sum of balances and the supply together, self-transfers and negative pulls included |
| Token.SoundStep | contracts/token/src/lib.rs:35-204 | an accepted call keeps a sound ledger sound exactly when a pull leaves its recipient out of debt and a further initialize names the holder of the whole supply |
| Token.InitializeExactness | contracts/token/src/lib.rs:35-42 | a further initialize keeps the sum equal to the supply exactly when the new admin held the whole supply |
| Token.TransferFromDebt | contracts/token/src/lib.rs:126-135 | an accepted transfer_from leaves nobody in debt exactly when the recipient can afford it |
| Token.SpendingWithinAllowance | contracts/token/src/lib.rs:126-204 | between two approvals the allowance pays one for one for what a spender takes, which never exceeds the approved amount |
| TokenEffects.AcceptedIff | contracts/token/src/lib.rs:35-204 | each call is accepted exactly when its signer may make it, the amounts are there and nothing overflows, written out per call |
| TokenEffects.BalanceAfter | contracts/token/src/lib.rs:35-204 | the balance of every account after any accepted call |
| TokenEffects.AllowanceAfter | contracts/token/src/lib.rs:86-204 | the allowance of every pair after any accepted call: an approval sets it, a pull or burn on behalf uses it up, nothing else touches it |
| TokenEffects.OfficesAfter | contracts/token/src/lib.rs:35-109 | supply, administrator and minters after any accepted call |
| TokenEffects.MintersAreMade | contracts/token/src/lib.rs:99-113 | in every run the minters are those the administrator added and has not removed since |
| TokenEffects.MintNeedsOffice | contracts/token/src/lib.rs:150-161 | in every run only the administrator or such a minter mints |
| TokenContract.Contract.Drive | contracts/token/src/lib.rs:35-204 | the imperative token driven through any list of attempted calls ends in the ledger that the theorems about runs speak about |
| TokenContract.Contract.Initialize | contracts/token/src/lib.rs:35-42 | whole new ledger or rejection |
| TokenContract.Contract.Transfer | contracts/token/src/lib.rs:69-76 | whole new ledger or rejection, with the second balance read after the first write |
| TokenContract.Contract.Approve | contracts/token/src/lib.rs:86-89 | whole new ledger |
| TokenContract.Contract.AddMinter | contracts/token/src/lib.rs:99-103 | whole new ledger or rejection |
| TokenContract.Contract.RemoveMinter | contracts/token/src/lib.rs:105-109 | whole new ledger or rejection |
| TokenContract.Contract.TransferFrom | contracts/token/src/lib.rs:126-135 | whole new ledger or rejection |
| TokenContract.Contract.Mint | contracts/token/src/lib.rs:150-161 | whole new ledger or rejection |
| TokenContract.Contract.Burn | contracts/token/src/lib.rs:172-179 | whole new ledger or rejection |
| TokenContract.Contract.BurnFrom | contracts/token/src/lib.rs:194-204 | whole new ledger or rejection |
| BalanceService.CalcPausedSeconds | services/balance/balance.js:24-55 | the loop's result for any history, and for alternating ones the number of paused seconds in the window |
| BalanceService.PausedSecondsExact | services/balance/balance.js:24-55 | the scan over an alternating history counts exactly the seconds inside paused intervals |
| BalanceService.CountSplits | services/balance/balance.js:24-55 | paused time is additive when a window is split anywhere |
| BalanceService.BalanceMeaning | services/balance/balance.js:76-124 | all four figures: paused time is the paused seconds of the window, active time the others, the accrual the rate times those, and the balance that accrual capped by the deposit |
| BalanceService.NothingReportedIff | services/balance/balance.js:76-92 | a stream with something left reports nothing exactly when it has ended, is before its cliff, or the window up to now or the stop time is empty |
| Calendar.AddMonthIsMonthLength | services/balance/balance.js:176-179 | a monthly step is as long as the month it starts in (MakeDay, section 21.4.1 of ECMA-262), on every day of every month |
| Calendar.AddDayIsOneDay | services/balance/balance.js:170-173 | a daily step is one day across month and year ends |
| Calendar.DateOf | services/balance/balance.js:170-179 | the calendar date of a day number maps back to that day number and lies within its month |
| Calendar.MonthLengths | services/balance/balance.js:176-179 | the month lengths of the Gregorian calendar, by name |
| Calendar.KnownDates | services/balance/balance.js:163-195 | the epoch, and the February of 2000 and of 2100 (MakeDay, section 21.4.1 of ECMA-262) |
| Periods.BuildPeriods | services/balance/balance.js:163-195 | terminates, throws only for an unsupported kind, and otherwise yields non-empty contiguous periods that cover the span exactly, each stepped as `StepLengths` says |
| Periods.StepLengths | services/balance/balance.js:163-195 | each period of the result ends 86,400 seconds after its start (daily), 604,800 (weekly), the length of the calendar month it starts in (monthly) or the number of seconds asked for (custom), or at the end of the span if that is earlier |
| Periods.NextCursorIsPeriodEnd | services/balance/balance.js:168-189 | the calendar arithmetic of the cursor lands on that end, and throws exactly for an unsupported kind |
| Periods.CalculateBalanceByDuration | services/balance/balance.js:138-157 | one row per period of the span with that period's earnings; for a live stream the rows add up to at most the rate times the active seconds reported on, and to exactly that if and only if no period reaches the cap |
| Periods.PeriodsLoseNothing | services/balance/balance.js:138-157 | the same for any chain of periods, with a cliff or without: reporting starts with the first period that ends at or after the cliff |
| Periods.ReportedFromIs | services/balance/balance.js:76-157 | where reporting starts: exactly the periods from there on are reported, and without a cliff that is the start of the span |
| Csv.BuildCsv | demo/src/csvExport.ts:37-66 | read by section 2 of RFC 4180, taking every unquoted character that is no delimiter as text, it yields the header and, in order, the six cells of each record kept by the date range; a reader that follows the grammar to the letter yields the same if every cell conforms and rejects the text otherwise |
| Csv.AllRoundTrip | demo/src/csvExport.ts:44-66 | every table with at least two cells a row survives printing and reading, strictly exactly when all its cells conform |
| Csv.PrintableConformsIff | demo/src/csvExport.ts:22-27 | of printable ASCII and line-break characters, a cell conforms exactly when it is quoted or has no carriage return |
| Csv.CellRoundTrip | demo/src/csvExport.ts:22-27 | an escaped cell, quoted or not, reads back as itself before any delimiter, and strictly exactly when it conforms |
| Csv.EscapeCellQuotes | demo/src/csvExport.ts:22-27 | a cell with a comma, a quote or a line feed is quoted, any other is left as it is |
| Csv.DecimalReadsBack | demo/src/csvExport.ts:58 | the printed stream id reads back as that number, without leading zeros |
| Csv.KeptIff | demo/src/csvExport.ts:48-54 | a record falls out exactly when it has a timestamp before the start or after the end of the range |
| Csv.KeptAtIs | demo/src/csvExport.ts:46-54 | the kept places are in order and are exactly those of the records that do not fall out |
| Csv.TableRows | demo/src/csvExport.ts:55-64 | the table has one row per kept place, with date, decimal stream id, employee, token, kind and amount of that record |
| Migration.Runner.Register | services/migration/migrationRunner.js:30-35 | a version is registered at most once |
| Migration.Runner.Migrate | services/migration/migrationRunner.js:109-150 | runs the pending versions in sorted order; exactly those that ran become applied: all registered ones, or, when one throws, those before it; with none pending nothing changes |
| Migration.Runner.Rollback | services/migration/migrationRunner.js:158-193 | undoes the applied versions above the target, newest first; every version still counts as applied afterwards |
| Migration.Runner.MigrateThenRollback | services/migration/migrationRunner.js:109-193 | from an empty history with invertible steps, migrating and rolling back to a target equals applying only the versions up to it, and a second migration in between changes nothing |
| Migration.RollbackUndoesMigration | services/migration/migrationRunner.js:158-193 | the same for the data alone, for any history in which all versions are applied |
| Migration.ValidatedThroughout | services/migration/migrationRunner.js:109-150 | in a run that succeeds every migration's data passed its validation before and after, and each got exactly what the one before it returned |
| Migration.SortedSorts | services/migration/migrationRunner.js:38-40 | the sorted versions are strictly ascending and are exactly the registered ones |
| Migration.LessIsLexicographic | services/migration/migrationRunner.js:38-40 | the order of versions: a proper prefix first, else the smaller character at the first difference |
| ApiKeys.WindowBound | api/services/apiKeyService.js:67-79 | each window admits at most max calls |
| ApiKeys.IntervalBound | api/services/apiKeyService.js:67-79 | every interval no longer than the window contains at most twice max admitted calls |
| ApiKeys.UsageCountsWindow | api/services/apiKeyService.js:67-79 | the usage record counts the calls since the first of the current window and remembers when that was |
| ApiKeys.AdmittedIff | api/services/apiKeyService.js:67-79 | a call is admitted if and only if it is among the first max of its window |
| ApiKeys.ServiceAdmitsIff | api/services/apiKeyService.js:67-79 | in every run of the service a check is admitted if and only if the key is usable and the check is among the first max of the key's own window |
| ApiKeys.ServiceIsLimited | api/services/apiKeyService.js:67-126 | both bounds in every run of the service, checks of many keys, rotations and revocations interleaved |
| ApiKeys.UsageIsOwn | api/services/apiKeyService.js:67-79 | the usage record of a key is what its own checks alone leave, whatever happens to other keys |
| ApiKeys.ChecksAreOwn | api/services/apiKeyService.js:67-79 | the run admits exactly those checks of a key that the limiter alone would |
| ApiKeys.AlwaysLinear | api/services/apiKeyService.js:86-126 | in every run with fresh keys rotation chains never fork and every predecessor is revoked |
| ApiKeys.OnlyNewestValidates | api/services/apiKeyService.js:54-126 | at most one key of a rotation chain can validate, and it is the newest |
| ApiKeys.UsableAfterIff | api/services/apiKeyService.js:31-126 | which keys validate after any call: a new one does, a rotated or revoked one does not, every other as before |
| ApiKeys.EventsRecord | api/services/apiKeyService.js:54-112 | a rotation revokes the old key and adds one with its limit and its id as origin; a validation stamps the key with its time; no other key changes |
| ApiKeys.RevokedForever | api/services/apiKeyService.js:86-126 | a revoked key stays revoked in every continuation of a run |
| ApiKeys.Service.Drive | api/services/apiKeyService.js:31-126 | a new service driven through any list of calls with fresh draws ends in the state the run theorems speak about |
| ApiKeys.Service.CreateKey | api/services/apiKeyService.js:31-49 | whole new store |
| ApiKeys.Service.ValidateKey | api/services/apiKeyService.js:54-62 | returns metadata exactly for a known unrevoked key, and stamps only that key |
| ApiKeys.Service.CheckRateLimit | api/services/apiKeyService.js:67-79 | whole new usage record and verdict; unknown keys are refused without a trace |
| ApiKeys.Service.RotateKey | api/services/apiKeyService.js:86-112 | whole new store, or a refusal that changes nothing |
| ApiKeys.Service.RevokeById | api/services/apiKeyService.js:117-126 | revokes the first key with that id, or reports that there is none |

## Left out

- Signature checks, storage lifetimes, events, contract upgrades and re-entrant calls by a token: host features; a signer is the address a call names, and the lock flag is modelled but no call runs inside another.
- `check_and_bump_rate` (contracts/stream/src/lib.rs:291) has no definition in the repository and is modelled as having no effect; `access_control.rs` is modelled only as the guard of each call.
- Of the two declarations of `StreamParams` the one with a cliff time is modelled.
- Inside `StreamContract` administrative and outside token calls are single steps; their own step-by-step form is in `ControlContract` and `TokenContract`.
- Near-exhaustion warnings, read-only views and the daily and monthly rates: they change nothing.
- Expiry of token allowances in temporary storage.
- Foreign token contracts: every token is the repository's own token contract.
- Which check panics first: a rejected call is one outcome, whatever its error code.
- JavaScript number precision and dates outside the range of `Date`; periods and times are exact integers, and period reporting starts at or after 1970.
- Accrual.LazyAccrualRefinesMeter: stated for active streams past the cliff and from the last restart; paused streams are covered by `PausedAccrualFrozenIff` and `ClosingPaysForThePause`, and what restarts lose by `LifetimeIsExactIff`.
- Rendering of dates in the CSV export: a record carries its moment and the ISO text of it; the browser download and paging are not modelled.
- Migrations without a database, the audit file, notifications, and lost audit rows; a failed validation writes no row because the table's check on the direction refuses it.
- Version strings are compared by code point.
- The random draws of the API key service: the hash and id of a new key are parameters, required to be fresh, and hashing is the identity of a key.
- Names, owners and creation times of API keys: stored and listed, never read by the service.
- HTTP routes, queues, database pools, user interfaces and SDKs: thin wrappers and I/O.
