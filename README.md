# Hakifi insurance backend — a Dafny model

Hakifi sells short-term price insurance on crypto pairs. A user asks the
backend for a contract on a pair (asset and unit, e.g. BTC/USDT). The
contract is stored PENDING with the current price as its open price and the
side the claim price implies. The user then funds it on chain. The backend
listens to the insurance contract's events:
- a CREATE event funds the contract: it becomes AVAILABLE with its computed
  parameters, or INVALID with a reason;
- REFUND and CLAIM events confirm a terminal state.

Other services drive the remaining transitions: cancel, claim, refund,
liquidate and expire. These, the activation and the two confirmations are
guarded writes ("update where id = X and state != target"). Only a matching
write is followed by its effects, which differ per transition:
- cancel, claim and refund: an update event, the on-chain call, one
  transaction row, and a state-log entry that records the call's hash or
  error;
- liquidate and expire: an update event, the on-chain call and the
  state-log entry, with no transaction row;
- activation (AVAILABLE): a creation event, the on-chain call and the
  state-log entry;
- the REFUNDED and CLAIMED confirmations: an update event and a state-log
  entry carrying the event's hash, with no call and no transaction row.

Invalidation is not guarded. It writes INVALID whatever the state and emits
no event. It calls the contract, and logs that call's outcome, only when
the margin is paid back.

Beside the lifecycle engine, the model covers:
- the user-facing insurance service: create, list, delete a pending
  contract, cancel, store a transaction hash;
- the seed script: tokens and pairs, per-pair market statistics, and PnL
  recomputation;
- the daily referral-level job;
- the wallet get-or-create service.

Layout:

- `types.dfy` (module `Types`): the records the modules share, such as
  the insurance record, its state log, transactions, domain events, on-chain
  calls and their outcome.
- `text.dfy` (`Text`): ASCII case folding, case-insensitive substring
  search, and the 24-hex-digit id test.
- `lifecycle.dfy` (`Lifecycle`): the pure engine over a `Ledger` value:
  - the event dispatch;
  - the decoding of the on-chain record;
  - the funding checks;
  - one step function per transition.
- `lifecycle_props.dfy` (`LifecycleProps`): invariants every step keeps,
  independence from the on-chain outcome, idempotence, and replays.
- `db.dfy` (`Db`): the database as a class whose tables the services
  update in place.
- `insurance_contract.dfy` (`InsuranceContract`): the contract service's
  methods on the database. Each is proved to leave the database exactly as
  its `Lifecycle` step function says.
- `insurances.dfy` (`Insurances`): the user-facing service.
- `seed.dfy` (`Seed`): the seed script.
- `users_schedule.dfy` (`UsersSchedule`): the referral-level cron job.
- `wallet.dfy` (`Wallets`): the wallet service.

Inputs to the model:
- Time is an integer count of milliseconds. The clock is a `now` parameter.
- Amounts are `real`.
- Helpers whose code is not part of this model are function-valued
  parameters. These are the parameter calculator, the validator, the
  cancel-price range check, the friend and margin queries, and the
  level table.
- The outcome of an on-chain call (`Hash` or `Failure`) is a parameter.

## Model

| member | source | states |
|---|---|---|
| Lifecycle.Dispatch | src/insurances/insurance-contract.service.ts:94-127 | CREATE (0) is handled as funding, REFUND (3) and CLAIM (5) as confirmations of REFUNDED and CLAIMED, and every other event type is ignored (each direction of each case) |
| Lifecycle.ReadInsurance | src/insurances/insurance-contract.service.ts:555-568 | no contract iff the owner address is absent, empty or the zero address; otherwise the lower-cased owner and margin and claim quantity equal to the wei amounts divided by 10^18 |
| Lifecycle.FundingFailure | src/insurances/insurance-contract.service.ts:155-191 | the four funding checks in order: the reason is INVALID_MARGIN iff the observed margin differs, INVALID_WALLET_ADDRESS iff margin matches and the owner's wallet is not the lower-cased sender, CREATED_TIME_TIMEOUT iff both match and more than 60 whole seconds passed, INVALID_UNIT iff only the unit differs |
| Lifecycle.StateChanged | src/insurances/insurance-contract.service.ts:200-224 | a confirmation whose write matches sets the state and close time, emits one update and logs the event's hash; no transaction and no call; otherwise no effect; other records unchanged |
| Lifecycle.Invalidate | src/insurances/insurance-contract.service.ts:226-261 | unconditional INVALID write with reason and close time; the contract call only when paying back; exactly one INVALID log entry, carrying the call outcome only when called; no transaction, other records unchanged |
| Lifecycle.MakeAvailable | src/insurances/insurance-contract.service.ts:263-334 | without a price or a matching write nothing changes; otherwise AVAILABLE with the current price as p_open and the computed parameters, one creation event, the call with q_claim and the expiry in seconds, and one log entry |
| Lifecycle.Cancel | src/insurances/insurance-contract.service.ts:336-378 | a matching write sets CANCELLED with close price and time, leaves PnL as it was, emits one update, issues the cancel call and records one SUCCESS CANCEL transaction for the margin; otherwise no effect |
| Lifecycle.Claim | src/insurances/insurance-contract.service.ts:380-427 | a matching write sets CLAIM_WAITING with close price, user PnL q_claim − margin and project PnL its negation (no close time), one CLAIM transaction for q_claim; otherwise no effect |
| Lifecycle.Refund | src/insurances/insurance-contract.service.ts:429-474 | a matching write sets REFUND_WAITING with close price and time, PnL unchanged, one REFUND transaction for the margin; otherwise no effect |
| Lifecycle.LiquidateOrExpire | src/insurances/insurance-contract.service.ts:476-527 | a matching write sets the target with close price and time, user PnL −margin and project PnL +margin, the liquidate or expire call as the target says, and no transaction; otherwise no effect |
| Lifecycle.Created | src/insurances/insurance-contract.service.ts:138-198 | an unknown id is ignored; a known id always gets the funding hash and one MARGIN transaction for the observed margin; a record no longer PENDING stops there with no event and no call; a PENDING record that fails a funding check becomes INVALID with that check's reason and close time, with no event and the pay-back call only for the timeout; one that passes becomes AVAILABLE at the current price with the computed claim quantity and expiry, one creation event carrying the written record, and the call with q_claim and the expiry in seconds; without a price it keeps only the hash |
| LifecycleProps.StateChangedFacts | src/insurances/insurance-contract.service.ts:200-224 | the confirmation keeps the store keyed by id, each record's last log entry equal to its state and PnL balanced; tables only grow, by at most one row each |
| LifecycleProps.InvalidateFacts | src/insurances/insurance-contract.service.ts:226-261 | the same invariants and growth bound for invalidation |
| LifecycleProps.MakeAvailableFacts | src/insurances/insurance-contract.service.ts:263-334 | the same invariants and growth bound for activation |
| LifecycleProps.CancelFacts | src/insurances/insurance-contract.service.ts:336-378 | the same invariants and growth bound for cancellation |
| LifecycleProps.ClaimFacts | src/insurances/insurance-contract.service.ts:380-427 | the same invariants and growth bound for a claim, whose PnL pair sums to zero |
| LifecycleProps.RefundFacts | src/insurances/insurance-contract.service.ts:429-474 | the same invariants and growth bound for a refund |
| LifecycleProps.LiquidateOrExpireFacts | src/insurances/insurance-contract.service.ts:476-527 | the same invariants and growth bound for liquidation and expiry |
| LifecycleProps.CreatedFacts | src/insurances/insurance-contract.service.ts:138-198 | the same invariants for a CREATE event, which adds exactly one transaction for a known id |
| LifecycleProps.ApplyStepFacts | src/insurances/insurance-contract.service.ts:77-127 | any single step of the engine keeps the invariants and only appends to every table and log |
| LifecycleProps.RunKeepsInvariants | src/insurances/insurance-contract.service.ts:77-127 | any sequence of steps keeps the invariants, keeps every id, and only extends every log and table |
| LifecycleProps.StateChangeIsLogged | src/insurances/insurance-contract.service.ts:542-553 | whenever a step changes a record's state, the record's log grows and its last entry carries the new state |
| LifecycleProps.InvalidateOutcome | src/insurances/insurance-contract.service.ts:236-258 | two runs of invalidation that differ only in the call outcome agree on everything but log hashes and errors |
| LifecycleProps.MakeAvailableOutcome | src/insurances/insurance-contract.service.ts:300-331 | the same independence from the call outcome for activation |
| LifecycleProps.CancelOutcome | src/insurances/insurance-contract.service.ts:336-378 | the same independence for cancellation (transaction hashes aside) |
| LifecycleProps.ClaimOutcome | src/insurances/insurance-contract.service.ts:380-427 | the same independence for claims |
| LifecycleProps.RefundOutcome | src/insurances/insurance-contract.service.ts:429-474 | the same independence for refunds |
| LifecycleProps.LiquidateOrExpireOutcome | src/insurances/insurance-contract.service.ts:476-527 | the same independence for liquidation and expiry |
| LifecycleProps.CreatedOutcome | src/insurances/insurance-contract.service.ts:138-198 | the same independence for a CREATE event |
| LifecycleProps.OutcomeOnlyReachesLogs | src/insurances/insurance-contract.service.ts:77-127 | for every step, whether the on-chain call succeeded or failed changes nothing but log entries' hashes/errors and transaction hashes |
| LifecycleProps.StateChangedIdempotent | src/insurances/insurance-contract.service.ts:205-214 | a repeated confirmation changes nothing (the `state != target` guard) |
| LifecycleProps.CancelIdempotent | src/insurances/insurance-contract.service.ts:339-348 | a repeated cancel changes nothing, at any time and with any outcome |
| LifecycleProps.ClaimIdempotent | src/insurances/insurance-contract.service.ts:382-392 | a repeated claim changes nothing |
| LifecycleProps.RefundIdempotent | src/insurances/insurance-contract.service.ts:431-440 | a repeated refund changes nothing |
| LifecycleProps.LiquidateOrExpireIdempotent | src/insurances/insurance-contract.service.ts:482-492 | a repeated liquidation or expiry changes nothing |
| LifecycleProps.MakeAvailableIdempotent | src/insurances/insurance-contract.service.ts:263-334 | a repeated activation changes nothing |
| LifecycleProps.DuplicateCreateOnlyAddsTransaction | src/insurances/insurance-contract.service.ts:146-173 | a replayed CREATE for a record no longer PENDING only stores the hash and appends one more MARGIN transaction |
| LifecycleProps.LateFundingIsPaidBack | src/insurances/insurance-contract.service.ts:175-191 | a PENDING contract funded with the right margin and wallet more than 60 s after creation becomes INVALID with CREATED_TIME_TIMEOUT and the pay-back call |
| LifecycleProps.CancelThenRefundConfirmationBothApply | src/insurances/insurance-contract.service.ts:200-224 | a confirmation is not checked against its predecessor: after a cancel, a REFUNDED confirmation still overwrites CANCELLED |
| InsuranceContract.WriteTransition | src/insurances/insurance-contract.service.ts:336-527 | the writes after a matching guarded update: the record, one update event, the calls and one log entry, keeping the table keyed by id |
| InsuranceContract.AddStateLog | src/insurances/insurance-contract.service.ts:542-553 | appends the entry to the record's log and returns the updated record; a missing id writes nothing |
| InsuranceContract.UpdateTxhash | src/insurances/insurance-contract.service.ts:529-540 | stores the hash on the record; a missing id writes nothing |
| InsuranceContract.OnContractStateChanged | src/insurances/insurance-contract.service.ts:200-224 | the database afterwards is exactly `Lifecycle.StateChanged` of the database before |
| InsuranceContract.InvalidateInsurance | src/insurances/insurance-contract.service.ts:226-261 | the database afterwards is exactly `Lifecycle.Invalidate` of the database before |
| InsuranceContract.AvailableInsurance | src/insurances/insurance-contract.service.ts:263-334 | the database afterwards is exactly `Lifecycle.MakeAvailable` of the database before |
| InsuranceContract.CancelInsurance | src/insurances/insurance-contract.service.ts:336-378 | the database afterwards is `Lifecycle.Cancel` of the database before; a record is returned iff the write matched, and it is the record the update event carries |
| InsuranceContract.ClaimInsurance | src/insurances/insurance-contract.service.ts:380-427 | the database afterwards is `Lifecycle.Claim` of the database before; a record is returned iff the write matched, and it is the record the update event carries |
| InsuranceContract.RefundInsurance | src/insurances/insurance-contract.service.ts:429-474 | the database afterwards is `Lifecycle.Refund` of the database before; a record is returned iff the write matched, and it is the record the update event carries |
| InsuranceContract.LiquidatedOrExpiredInsurance | src/insurances/insurance-contract.service.ts:476-527 | the database afterwards is `Lifecycle.LiquidateOrExpire` of the database before; a record is returned iff the write matched, and it is the record the update event carries |
| InsuranceContract.OnContractCreated | src/insurances/insurance-contract.service.ts:138-198 | the database afterwards is exactly `Lifecycle.Created` of the database before |
| InsuranceContract.OnEventInsurance | src/insurances/insurance-contract.service.ts:77-127 | decodes the margin from wei and runs the handler `Dispatch` picks; an ignored event type leaves the database unchanged |
| Insurances.MarketRejection | src/insurances/insurances.service.ts:73-87 | BAD_SYMBOL iff the pair is missing or inactive, or usable but unpriced; MAINTAINED iff usable and under maintenance; accepted iff usable, not maintained and priced |
| Insurances.SideOf | src/insurances/insurances.service.ts:138-139 | BULL iff the claim price is above the current price, BEAR otherwise |
| Insurances.BucketOf | src/insurances/insurances.service.ts:94-126 | a signal bucket exists iff the unit is days or the period is 1, 4 or 12 hours; its interval and date are present together |
| Insurances.BucketIsFloor | src/insurances/insurances.service.ts:94-126 | the bucket date is a multiple of the bucket width and the current time lies in [date, date + width) |
| Insurances.FirstPeriod | src/insurances/insurances.service.ts:145-157 | no index iff no configured period matches unit and period; otherwise the first matching index |
| Insurances.SignalFor | src/insurances/insurances.service.ts:128-136 | the prediction is BUY iff a bucket exists and BUY is stored under the upper-cased symbol and that bucket |
| Insurances.Create | src/insurances/insurances.service.ts:52-221 | the error chain in source order leaves the table unchanged; a record is created iff the validator accepts the draft with the signal for its bucket; the table then gains exactly one record under the new id, and every field of it is stated: the request's asset, unit, margin, covered quantity, claim price and period; p_open the current price; the side from the claim price; the configured change ratio; the calculated claim quantity, liquidation, refund and cancel prices, leverage, system capital, hedge and expiry; PENDING at the creation time; no close price, close time, hash, reason or PnL; an empty log |
| Insurances.BuildWhere | src/insurances/insurances.service.ts:224-258 | the filter admits a record iff the query asks for it: owner, state, search on hash or id, closed/created ranges, upper-cased asset |
| Insurances.FindAll | src/insurances/insurances.service.ts:260-281 | the total is the number of matching records; the page has the length skip/limit leave of it, and holds distinct matching records |
| Insurances.OwnedBy | src/insurances/insurances.service.ts:284-291 | a record is found iff the id exists and belongs to the user, and it is the stored one |
| Insurances.DeletePendingInsurance | src/insurances/insurances.service.ts:284-291 | succeeds iff the user's record exists and is PENDING, and then removes exactly it; NOT_FOUND otherwise, with nothing changed |
| Insurances.CancelRejection | src/insurances/insurances.service.ts:303-330 | NOT_FOUND iff no owned record; ERROR_CANCEL iff not AVAILABLE or locked; price unavailable iff no price; INVALID_CANCEL_PRICE iff out of range; accepted iff none of these |
| Insurances.CancelInsurance | src/insurances/insurances.service.ts:303-342 | a rejection changes nothing; otherwise the database is `Lifecycle.Cancel` at the current price and the record returned is CANCELLED |
| Insurances.UpdateTxHash | src/insurances/insurances.service.ts:355-360 | succeeds iff the user owns the record, and then stores the hash on it only; NOT_FOUND otherwise, nothing changed |
| Seed.PairsFor | prisma/seed/seed.ts:34-43 | one pair per token, in token order: asset the token, unit USDT, symbol asset followed by USDT |
| Seed.SeedTokensAndPairs | prisma/seed/seed.ts:12-46 | tokens are loaded from the token file only into an empty table, and pairs are created from the tokens only into an empty table |
| Seed.ScanInsurances | prisma/seed/seed.ts:167 | the rows read are exactly the table's records, each once |
| Seed.Totals | prisma/seed/seed.ts:48-132 | a pair's figures: count non-negative, bulls plus bears equal the count, payback equals claimed plus refunded, and no counted contract gives all zeros |
| Seed.GroupKeysDistinct | prisma/seed/seed.ts:58-62 | the grouping yields each (asset, unit) at most once |
| Seed.GroupKeysCovered | prisma/seed/seed.ts:50-62 | every counted record's (asset, unit) has a group |
| Seed.GroupKeysOccur | prisma/seed/seed.ts:50-62 | every group has at least one counted record |
| Seed.GroupFiguresAreTotals | prisma/seed/seed.ts:58-122 | each group's sums equal the independent per-pair totals, payback aside |
| Seed.AggregateIsTotals | prisma/seed/seed.ts:48-132 | the pipeline's result has one row per counted pair and no other, each with exactly that pair's totals including payback |
| Seed.LastFor | prisma/seed/seed.ts:134-164 | no figures for a symbol iff no group has that symbol |
| Seed.UpsertAllRow | prisma/seed/seed.ts:134-164 | after the upserts a symbol has a row iff it had one or a group has it; the row keeps old figures without a group and takes the last group's figures otherwise |
| Seed.UpsertAllIdempotent | prisma/seed/seed.ts:134-164 | running the upserts twice gives the same statistics as once |
| Seed.UpsertMarketStats | prisma/seed/seed.ts:134-164 | the statistics table afterwards is the upsert of every group, in order |
| Seed.PnlUserOf | prisma/seed/seed.ts:169-181 | user PnL is q_claim − margin for CLAIMED/CLAIM_WAITING, −margin for LIQUIDATED/EXPIRED, 0 otherwise |
| Seed.WithSeedPnl | prisma/seed/seed.ts:183-191 | both PnL fields set, the project's the negation of the user's |
| Seed.ClaimPnlAgreesWithSeed | prisma/seed/seed.ts:169-174 | the PnL a claim writes is the PnL the seed recomputes for it |
| Seed.LiquidateOrExpirePnlAgreesWithSeed | prisma/seed/seed.ts:175-178 | the PnL liquidation or expiry writes is the PnL the seed recomputes for it |
| Seed.RecomputePnl | prisma/seed/seed.ts:166-192 | every record, and no other, gets the recomputed PnL pair and is otherwise unchanged |
| Seed.RunSeed | prisma/seed/seed.ts:11-192 | the whole script: tokens and pairs seeded when empty, statistics upserted from the aggregation of the current insurances, every record's PnL recomputed |
| UsersSchedule.Rate | src/users/users.schedule.ts:12-17 | a tier has a positive rate iff it is 1 to 4, never above 10%, zero otherwise |
| UsersSchedule.ScopeOf | src/users/users.schedule.ts:54-64 | partners count friends of all tiers, others F1 only |
| UsersSchedule.FriendShare | src/users/users.schedule.ts:90-100 | a friend adds rate × margin, nothing without a tier or margin entry |
| UsersSchedule.WeightedMarginAppend | src/users/users.schedule.ts:90-101 | the weighted sum splits over concatenation of the friend list |
| UsersSchedule.UnratedFriendsAddNothing | src/users/users.schedule.ts:95-99 | friends without a rated tier or margin contribute zero in total |
| UsersSchedule.WeightedMarginBounds | src/users/users.schedule.ts:90-101 | with non-negative margins the weighted sum is between 0 and a tenth of the plain sum |
| UsersSchedule.MarginMap | src/users/users.schedule.ts:83-87 | every grouped row's user is a key with that row's sum (rows have distinct users), and every key comes from a row |
| UsersSchedule.MarginMapAsWritten | src/users/users.schedule.ts:84-87 | the table as built: absent (an error) iff there are no rows; the first row's user is never a key |
| UsersSchedule.ReduceDropsFirstGroup | src/users/users.schedule.ts:84-100 | a single F1 friend with margin m contributes 0 through the table as built and m/10 through the intended one |
| UsersSchedule.StatUpsertAsWritten | src/users/users.schedule.ts:104-116 | the upsert as written is absent (an error) iff the user had no stat row; otherwise keys kept and the check time refreshed |
| UsersSchedule.NextLevel | src/users/users.schedule.ts:118-128 | the level never drops, is either the old or the derived one, and rises iff the derived one is higher |
| UsersSchedule.AccruedGrows | src/users/users.schedule.ts:103-116 | with non-negative margins the accumulated friends' margin never shrinks |
| UsersSchedule.UpgradeUser | src/users/users.schedule.ts:52-134 | a failing user is left untouched; otherwise the user's stat row becomes its prior total plus the weighted margin, at `now`, and the level is raised to the derived one only when higher |
| UsersSchedule.EligibleIdx | src/users/users.schedule.ts:31-36 | the positions the filter admits: no more than the collection has, and each holds a user with more than one friend below level 9 |
| UsersSchedule.EligibleIdxFacts | src/users/users.schedule.ts:31-36 | those positions are increasing, and every admitted position is among them |
| UsersSchedule.EligibleIds | src/users/users.schedule.ts:31-36 | the eligible users in collection order: the j-th is the user at the j-th admitted position, every listed user is eligible and every eligible user is listed |
| UsersSchedule.Page | src/users/users.schedule.ts:39-49 | a page holds at most 100 ids, the ones at skip, skip+1, …, and is empty past the end |
| UsersSchedule.OutcomeStep | src/users/users.schedule.ts:51-135 | the per-user step on a user not processed before gives that user its outcome from the state the job started with and keeps every other user's |
| UsersSchedule.OutcomesProgress | src/users/users.schedule.ts:26-140 | when every user has its outcome, the users are the same, levels are never lowered and nothing else of a user changes, and each stat row is kept or belongs to an initially eligible user refreshed at `now` |
| UsersSchedule.UpgradePage | src/users/users.schedule.ts:51-135 | each user of the page gets its stat row and level computed from the state before the page, or is left as it was when its step fails; every other user and stat row is untouched |
| UsersSchedule.PageFresh | src/users/users.schedule.ts:38-51 | the users of a page are distinct and none of them was processed on an earlier page |
| UsersSchedule.CompleteStep | src/users/users.schedule.ts:31-49 | while no processed user has reached level 9, nobody leaves the eligible list, so each page is the next slice of the list the job started with |
| UsersSchedule.PageAdvances | src/users/users.schedule.ts:38-138 | one page keeps the loop invariant: processed users tracked at increasing positions, initially eligible, with their outcome; the next read past every processed position; the processed users a prefix of the starting list while none reached level 9 |
| UsersSchedule.UpgradeNextPage | src/users/users.schedule.ts:38-137 | reads the page at `skip` from the current eligible list and processes it, keeping the loop invariant |
| UsersSchedule.UpgradeUserLevelCron | src/users/users.schedule.ts:26-140 | the total is the number of eligible users, and the number of pages read is the least covering it; the users processed are distinct and were eligible when the job started; each gets its stat row and level from the starting state unless its step fails, and every other user and stat row is untouched; when no processed user reaches level 9, the processed users are exactly the starting eligible users, in collection order |
| Text.ToLower | src/insurances/insurance-contract.service.ts:179 | same length, each character folded to lower case |
| Text.ToUpper | src/insurances/insurances.service.ts:257 | same length, each character folded to upper case |
| Text.ToLowerIdempotent | src/insurances/insurance-contract.service.ts:557 | lower-casing twice is lower-casing once |
| Wallets.FindWallet | src/wallet/wallet.service.ts:12-19 | no position iff no wallet has the user and asset; otherwise a position holding such a wallet |
| Wallets.GetOrCreate | src/wallet/wallet.service.ts:11-24 | an existing wallet is returned with the table as it was; otherwise a new wallet for the user and asset is appended and returned; the (userId, asset) index stays unique |
| Wallets.GetOrCreateIdempotent | src/wallet/wallet.service.ts:11-24 | a second get-or-create returns the same wallet and creates nothing |
| Wallets.WalletsOf | src/wallet/wallet.service.ts:27-31 | exactly the user's wallets from the table |
| Wallets.GetWallets | src/wallet/wallet.service.ts:9-32 | with an asset, get-or-create for it; without one, the user's wallets with the table untouched |

## Left out

- Event subscription, providers, signers and the contract object itself are not modelled. Each on-chain call is a `ChainCall` value, and its result is the `ChainOutcome` parameter.
- The per-insurance lock is left out, and so are the debounce of events and the concurrency between handlers. Each step runs atomically. Whether a contract is locked is the `isLocked` input of the user-facing cancel.
- Prisma throws when an `update` matches no row. In the model that write has no effect, and the dependent event, call, transaction and log entry do not happen.
- The parameter calculator is a parameter: `calcParams`. So are the validator (`validate`), the cancel-price range check (`inRange`), the friend query (`friendsOf`), the grouped margin query (`marginsOf`) and the margin-to-level table (`levelOf`). Their code is not part of this model.
- The prediction signal cache is a map input, and so are the pair and available-period configuration.
- `Insurances.SignalFor`: for an HOUR period other than 1, 4 or 12, the source issues the prediction lookup with the date and interval undefined (insurances.service.ts:94-136). What the database client does with that query is not part of this model. The model reads no signal, so the prediction is SELL.
- Floating-point arithmetic is modelled as exact `real` arithmetic. Wei amounts are divided by 10^18 exactly.
- `Insurances.Create`: every validator error is reported as one `ValidationFailed` error, not the validator's own message.
- `Insurances.FindAll`: the sort order and the included token relation are not modelled. The order in which the page's records are taken from the matching ones is left unspecified. `skip` and `limit` are natural numbers, so an absent `take` is not modelled.
- `Insurances.CancelInsurance`: when the current-price lookup throws, the model reports a price-unavailable rejection and changes nothing.
- `Text.ToLower`, `Text.ToUpper`: only ASCII letters are folded.
- `Text.IsMongoId` is approximated by "24 hexadecimal digits".
- `Insurances.findOne`, `getInsuranceContract` of the user-facing service, `getCurrentDistancePClaim`, `createSampleInsurance` and `getStats` are not modelled. They are a pass-through, test helpers, or statistics readers outside the lifecycle.
- Authentication, controllers, DTO validation, configuration and the other modules (transactions, users API, notifications) are not part of this model.
- `Seed.RunSeed`: the token file is the `tokenFile` input, and the database connect/disconnect is left out. Aggregation groups come out in the order their pairs first appear in the scan, which the database does not promise.
- `UsersSchedule.UpgradeUser`: an error is modelled as raised before any write (the `fails` input). The model does not capture a partial step in which the stat row is written and the level update then fails.
- `UsersSchedule.UpgradeUser` models the intended behaviour where the source does not:
  - it uses the intended margin table `MarginMap`;
  - it creates the stat row for a user without one (see Findings);
  - it takes the grouped margin rows as given, so the source's filter of insurance ids against friend ids at users.schedule.ts:70 is not modelled.
- `UsersSchedule.UpgradeUserLevelCron`: each user is read at processing time, not from the page. This is the same because user ids are distinct and a step changes only its own user. When a processed user reaches level 9 it leaves the filtered list, later pages shift, and some eligible users are never read. The contract then says which users were processed and what each got, but not which eligible users were skipped.
- `LifecycleProps.RunKeepsInvariants`: the record invariants are proved on the pure step functions. The database methods are proved equal to those functions and do not restate the invariants.
- Three behaviours of the code worth noting:
  - a replayed CREATE event adds a second MARGIN transaction;
  - a REFUNDED/CLAIMED confirmation is applied without checking the state it replaces;
  - a claim does not set the close time.

## Findings

| source | as written | input that shows it | evidently intended | confidence | as-written member | corrected member |
|---|---|---|---|---|---|---|
| src/users/users.schedule.ts:84-87 | the margin table is built by `reduce` without an initial value | no grouped rows: the reduce throws, so the user is skipped; one row for an F1 friend with margin 100: the row itself becomes the table, and the friend adds 0 instead of 10 | fold from an empty table, so every row's user maps to its sum | high (not executed) | UsersSchedule.MarginMapAsWritten, UsersSchedule.ReduceDropsFirstGroup | UsersSchedule.MarginMap |
| src/users/users.schedule.ts:104-116 | the update branch reads the stat row fetched with the user before the upsert runs | a user with no stat row: evaluating the update's total throws, so the create branch is never reached and the user never gets a stat row or a level | the prior total is 0 without a stat row, and the row is created | high (not executed) | UsersSchedule.StatUpsertAsWritten | UsersSchedule.UpgradeUser |
