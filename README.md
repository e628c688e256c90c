# SwiftRemit in Dafny

SwiftRemit is a Soroban smart contract for USDC remittances. An admin
initializes the contract with a platform fee rate in basis points and
registers payout agents. A sender locks an amount in the contract's custody,
and the fee is fixed at that moment. The agent then confirms the payout: the
amount minus the fee goes to the agent and the fee joins the platform pool.
The sender may instead cancel and get the full amount back. The admin
withdraws the accumulated fees. `batch_settle` confirms many remittances in
one call. It has two phases: it first validates every entry, then executes
every settlement, and the host undoes the whole call if any step fails.

The project models `src/lib.rs` and `src/types.rs` in two layers.

- **Specification.** Module `Ledger` models the contract's storage as one
  value `State` and each entry point as a function. The function returns
  `Ok(Commit(ret, post))` or `Err(e)`; after `Err` the host rolls every write
  of the call back (`Apply`). Module `Batch` specifies `batch_settle` the
  same way, with phase 1 (`ValidateWith`) and phase 2 (`Execute`) as prefix
  recursions that stop at the first failure.
- **Implementation.** Class `Contract.SwiftRemit` holds the storage as
  fields. Each entry point is a method that writes those fields in the
  source's order. Each method is proved to do exactly what its function says,
  error paths and rollback included (`Applied`). Phase 1 of the batch is a
  read-only loop. Phase 2 is a loop that writes in place and rolls back on
  failure.

Arithmetic follows Rust's semantics. `i128`, `u64` and `u32` are subset
types, and each `checked_*` operation returns `Option`. Division truncates
toward zero (`Numeric`). The fee is `amount * fee_bps / 10000`, computed with
`checked_mul` and then `checked_div` (`Fees`).

The properties proved about the model include:

- every reachable state satisfies a storage invariant (`Invariants`);
- Completed and Cancelled are terminal states;
- the expiry boundary is exact;
- a fee-rate change never reaches an existing remittance;
- a batch either settles every entry in order or changes nothing;
- the batch events come in the documented order;
- a one-entry batch agrees with `confirm_payout`.

## Model

| member | source | states |
|---|---|---|
| Numeric.CheckedDiv | src/lib.rs:111 | `i128::checked_div` fails exactly on a zero divisor or `MIN / -1`; otherwise the quotient rounds toward zero: the remainder `a - q * b` is smaller than the divisor in magnitude and is zero or has the dividend's sign |
| Fees.ComputeFee | src/lib.rs:107-112 | fails with `Overflow` exactly when `amount * fee_bps` leaves i128; otherwise, for a non-negative amount, the fee is `amount * fee_bps / 10000` |
| Fees.FeeWithinAmount | src/lib.rs:107-112 | for a positive amount and a rate of at most 10000 bps, the fee lies in [0, amount] and the payout `amount - fee` lies in [0, amount] |
| Fees.SmallAmountsNeverOverflow | src/lib.rs:107-112 | an amount with `amount * 10000` inside i128 never makes the fee computation overflow at an allowed rate |
| Fees.FeeMonotoneInRate | src/lib.rs:107-112 | a higher rate never gives a lower fee |
| Ledger.Initialize | src/lib.rs:24-47 | succeeds exactly on an uninitialized contract and a rate of at most 10000 bps; otherwise fails with `AlreadyInitialized` or `InvalidFeeBps`, in that order; on success it stores the admin, token and rate, sets counter 0 and pool 0, and leaves records, agents, transfers and events alone |
| Ledger.SetAgent | src/lib.rs:49-71 | succeeds exactly when initialized and the admin authorizes; otherwise `NotInitialized` or `Unauthorized`; on success it sets the one agent's flag to the requested value, leaves every other agent alone, and publishes `AgentRegistered` or `AgentRemoved` |
| Ledger.UpdateFee | src/lib.rs:73-88 | succeeds exactly when initialized, the admin authorizes and the rate is at most 10000 bps, with the errors in that order; on success it stores the new rate, leaves every record alone, and publishes `FeeUpdated(admin, new, new)` |
| Ledger.UpdateFeeIntended | src/lib.rs:73-88 | the corrected `update_fee`: fails exactly as `update_fee` does and leaves the same storage; its event carries the rate stored before the call as the old rate |
| Ledger.CreateRemittance | src/lib.rs:90-141 | checks the sender's authorization, `amount > 0` and a registered agent in that order; then fails with `NotInitialized` before `initialize`, with `Overflow` when `amount * fee_bps` leaves i128, and with `Overflow` when the counter is at `u64::MAX`; succeeds exactly when all of these pass; on success it stores a Pending record with the fee frozen at the current rate under id `counter + 1`, advances the counter, and logs one transfer of the amount from the sender into custody |
| Ledger.ConfirmPayout | src/lib.rs:143-198 | a missing record gives `RemittanceNotFound`; then, in order: the agent's authorization, Pending status (`InvalidStatus`), no settlement marker (`DuplicateSettlement`), not expired (`SettlementExpired`, strictly after the expiry), the agent's address check (`InvalidAddress`), `amount - fee` within i128 (`Overflow`), an initialized contract (`NotInitialized`), and the pool plus the fee within i128 (`Overflow`); it succeeds exactly when every one of these passes; on success the payout `amount - fee` goes from custody to the agent, the fee joins the pool, the record becomes Completed and its marker is set |
| Ledger.CancelRemittance | src/lib.rs:200-225 | `RemittanceNotFound`, then the sender's authorization, then `InvalidStatus` unless Pending; succeeds exactly when these pass on an initialized contract; on success the full amount goes back to the sender, the record becomes Cancelled, and the pool and the markers are untouched |
| Ledger.WithdrawFees | src/lib.rs:227-251 | succeeds exactly when initialized, the admin authorizes, the recipient passes the address check and the pool is positive, with the errors in that order; on success the whole pool goes to the recipient and the pool is reset to 0 |
| Types.Expired | src/lib.rs:158-163 | a record without an expiry never expires; one with an expiry has not expired at or before that instant and has expired one second after it (also src/lib.rs:336-342) |
| Batch.CheckEntry | src/lib.rs:315-357 | an entry passes exactly when its record is stored, Pending, unmarked, not claimed earlier in the batch, unexpired, has a well-formed agent and `amount - fee` fits in i128; a passing entry yields the snapshot of the record's id, agent, `amount - fee`, fee and sender; reason 12 only for a marked or claimed id |
| Batch.ValidateWith | src/lib.rs:310-367 | a validated batch has one snapshot per entry; a rejection names an index inside the batch and that entry's id |
| Batch.ExecuteStep | src/lib.rs:374-409 | one settlement succeeds exactly when the pool plus the fee fits in i128, the record is stored and the running total plus the payout fits in i128; it fails only with `Overflow` or `RemittanceNotFound`; on success the pool grows by the fee, the total by the payout, the count by one, one successful result is appended, an event is staged, and the record is Completed and marked |
| Batch.Interrupted | src/lib.rs:399-403 | a failed step leaves the progress as it was, except that it stages the step's one completion event exactly when the failure came after that event, i.e. the pool addition passed and the record was found |
| Batch.Execute | src/lib.rs:369-410 | phase 2 only extends the results and the staged events, never by more than one result per snapshot, and on success by exactly one result per snapshot with the success count advanced by the number of snapshots |
| Batch.BatchSettleWith | src/lib.rs:292-418 | a call publishes no event exactly for an empty batch, and otherwise the start event first; a success happens only on an initialized contract, returns one result per entry, and commits exactly the events it published |
| BatchProofs.ValidateSpec | src/lib.rs:310-367 | phase 1 accepts exactly the batches whose every entry passes its guards, yielding one snapshot per entry in input order; otherwise it reports the first failing index, that entry's id and the reason |
| BatchProofs.RejectionPersists | src/lib.rs:310-367 | once a prefix of the batch is rejected, the whole batch is rejected in the same way (fail-fast) |
| BatchProofs.ExecuteSpec | src/lib.rs:369-410 | a successful phase 2 has made one settlement per snapshot, in order: one payout each, every fee added to the pool, exactly the listed records Completed with markers set, nothing else changed, and one result and one completion event per snapshot |
| BatchProofs.ExecuteSucceedsIff | src/lib.rs:369-410 | when every snapshot names a stored record, phase 2 succeeds exactly when every running sum of pool and total payout stays within i128; otherwise it fails with `Overflow` |
| BatchProofs.ExecuteFailurePersists | src/lib.rs:369-410 | once phase 2 has failed on a prefix, it has failed on the whole sequence with the same progress |
| BatchProofs.ExecuteFailureIsOverflowOrMissing | src/lib.rs:369-410 | phase 2 fails only with `Overflow` or `RemittanceNotFound` |
| BatchProofs.ValidatedSnapshots | src/lib.rs:310-367 | every snapshot of a validated batch names its entry's stored, Pending, unmarked record and copies its agent, fee, sender and `amount - fee` |
| BatchProofs.BatchSettleSuccessPerEntry | src/lib.rs:292-418 | a successful batch returns one successful result per entry, in input order, with the record's payout; every listed record was Pending and unmarked, and is now Completed with its marker set |
| BatchProofs.BatchSettleSuccessTotals | src/lib.rs:292-418 | a successful batch adds the sum of the fees to the pool, logs one payout per entry, sets exactly the listed markers, leaves every other record and field alone, and publishes the start event, one completion per entry and a batch-completed event with the batch length and the total payout |
| BatchProofs.BatchSettleRejected | src/lib.rs:310-367 | a rejected batch publishes the start event and one batch-failed event with the first failing index, its id and the reason code, then fails with `BatchValidationFailed`; every earlier entry passed |
| BatchProofs.BatchValidationFailsIff | src/lib.rs:292-367 | on an initialized contract, a non-empty batch fails with `BatchValidationFailed` exactly when some entry fails its guards |
| BatchProofs.BatchEventDiscipline | src/lib.rs:296-302 | an empty batch fails with `BatchEmpty` and publishes nothing; the start event comes first and only once; a success ends with the one batch-completed event and has no batch-failed event; a validation failure publishes exactly the start and one batch-failed event |
| BatchProofs.ExecutionFailureEvents | src/lib.rs:385-403 | a batch that fails in phase 2 fails with an error other than `BatchValidationFailed` and publishes the start event followed only by completion events: neither a batch-failed nor a batch-completed event, all discarded by the rollback |
| BatchProofs.BatchStagedEventsAreCompletions | src/lib.rs:369-410 | phase 2 stages only per-remittance completion events, whether or not it fails |
| BatchProofs.DuplicateEntryPaysTwice | src/lib.rs:330 | as written, a batch naming one Pending remittance twice succeeds, pays the agent twice and adds the fee to the pool twice |
| BatchProofs.DeduplicationAgreesWhenDistinct | src/lib.rs:310-367 | on a batch without repeated ids, the corrected coordinator behaves exactly as the code as written |
| BatchProofs.DeduplicatedSuccessImpliesDistinct | src/lib.rs:330 | the corrected coordinator settles only batches without repeated ids |
| Invariants.DeployedInv | src/lib.rs:24-47 | a fresh deployment satisfies the storage invariant |
| Invariants.CreatePreservesInv | src/lib.rs:90-141 | `create_remittance` keeps the invariant; the new id was never used, and the new record's fee lies in [0, amount] |
| Invariants.ConfirmPreservesInv | src/lib.rs:143-198 | `confirm_payout` keeps the invariant: the marker is set exactly as the record becomes Completed, and the pool stays non-negative |
| Invariants.CancelPreservesInv | src/lib.rs:200-225 | `cancel_remittance` keeps the invariant, only moves the state forward, and leaves the settlement markers exactly as they were |
| Invariants.BatchPreservesInv | src/lib.rs:292-418 | a batch, as written or deduplicated, keeps the invariant |
| Invariants.InitPreservesInv | src/lib.rs:24-47 | `initialize` keeps the invariant and keeps the rate within 10000 bps |
| Invariants.AgentsPreserveInv | src/lib.rs:49-71 | `register_agent` and `remove_agent` keep the invariant |
| Invariants.FeeChangePreservesInv | src/lib.rs:73-88 | `update_fee` keeps the invariant |
| Invariants.WithdrawPreservesInv | src/lib.rs:227-251 | `withdraw_fees` keeps the invariant and the pool stays non-negative |
| Invariants.StepPreservesInv | src/lib.rs:24-418 | every entry point keeps the invariant and only moves the state forward: records are never deleted and change only their status, only out of Pending; markers are never cleared; the counter never decreases; admin and token never change once set; the transfer and event logs only grow |
| Invariants.RunPreservesInv | src/lib.rs:24-418 | any sequence of calls keeps the invariant: the rate stays within 10000 bps, every record's fee lies in [0, amount], the pool is non-negative, and a marker exists exactly for Completed records |
| Invariants.ReachableInv | src/lib.rs:24-418 | every state reachable from a fresh deployment satisfies the invariant |
| Lifecycle.ConfirmIsTerminal | src/lib.rs:143-225 | after a successful payout, any further payout and any cancellation of that remittance fail, with `InvalidStatus` once authorized |
| Lifecycle.CancelIsTerminal | src/lib.rs:143-225 | after a cancellation, any payout and any further cancellation of that remittance fail, with `InvalidStatus` once authorized |
| Lifecycle.ExpiryBoundary | src/lib.rs:157-163 | a payout one second after the expiry fails with `SettlementExpired` and changes nothing; at or before the expiry, and without an expiry, the expiry guard passes, and the payout succeeds when the address check passes and the payout and the new pool fit in i128 |
| Lifecycle.FeeFrozenAcrossRateChange | src/lib.rs:73-88 | after a rate change, paying out an existing remittance adds its original fee and makes the same transfer as without the change |
| Lifecycle.DuplicateSettlementUnreachable | src/lib.rs:148-155 | under the invariant, `confirm_payout` never fails with `DuplicateSettlement`, because the status guard rejects a marked record first |
| Lifecycle.BatchReasonsUnreachable | src/lib.rs:329-357 | under the invariant, phase 1 as written never reports reason 12 or reason 8 |
| Lifecycle.WithdrawEmptiesPool | src/lib.rs:227-251 | right after a successful withdrawal, a second one fails with `NoFeesToWithdraw` |
| Lifecycle.Example1000At250 | src/lib.rs:90-198 | at 250 bps a remittance of 1000 carries a fee of 25; paying it out sends 975 to the agent and adds 25 to the pool |
| Lifecycle.SingleEntryBatchAgreesWithConfirm | src/lib.rs:143-198 | a one-entry batch succeeds exactly when `confirm_payout` by the agent succeeds, and then leaves the same storage apart from the events; a rejected entry's reason maps to the error `confirm_payout` raises |
| Lifecycle.BatchStopsAtCompletedEntry | src/lib.rs:322-327 | a batch whose second entry is Completed fails at index 1 with reason code 7, publishes only the start and failure events, and changes nothing |
| Lifecycle.UpdateFeeReportsNewRateAsOld | src/lib.rs:81-83 | raising the rate from 100 to 200 bps publishes `FeeUpdated(admin, 200, 200)` as written and `FeeUpdated(admin, 100, 200)` as intended |
| Contract.SwiftRemit.Initialize | src/lib.rs:24-47 | the method's new storage and result are exactly those of `Ledger.Initialize` |
| Contract.SwiftRemit.RegisterAgent | src/lib.rs:49-59 | the method's new storage and result are exactly those of `Ledger.SetAgent` with the flag true |
| Contract.SwiftRemit.RemoveAgent | src/lib.rs:61-71 | the method's new storage and result are exactly those of `Ledger.SetAgent` with the flag false |
| Contract.SwiftRemit.UpdateFee | src/lib.rs:73-88 | the method's new storage and result are exactly those of `Ledger.UpdateFee` |
| Contract.SwiftRemit.CreateRemittance | src/lib.rs:90-141 | the method's new storage and result are exactly those of `Ledger.CreateRemittance`, including the rollback of the transfer when the counter overflows |
| Contract.SwiftRemit.ConfirmPayout | src/lib.rs:143-198 | the method's new storage and result are exactly those of `Ledger.ConfirmPayout`, including the rollback of the payout when the pool overflows |
| Contract.SwiftRemit.CancelRemittance | src/lib.rs:200-225 | the method's new storage and result are exactly those of `Ledger.CancelRemittance` |
| Contract.SwiftRemit.WithdrawFees | src/lib.rs:227-251 | the method's new storage and result are exactly those of `Ledger.WithdrawFees` |
| Contract.SwiftRemit.GetRemittance | src/lib.rs:253-255 | returns the stored record, or `RemittanceNotFound` exactly when there is none |
| Contract.SwiftRemit.GetAccumulatedFees | src/lib.rs:257-259 | returns the pool, or `NotInitialized` exactly before `initialize` |
| Contract.SwiftRemit.IsAgentRegistered | src/lib.rs:261-263 | true exactly when the agent's flag is stored and true |
| Contract.SwiftRemit.GetPlatformFeeBps | src/lib.rs:265-267 | returns the rate, or `NotInitialized` exactly before `initialize` |
| Contract.SwiftRemit.ValidateBatch | src/lib.rs:310-367 | the loop returns exactly phase 1's verdict, `Batch.Validate`, whose meaning `BatchProofs.ValidateSpec` states |
| Contract.SwiftRemit.SettleOne | src/lib.rs:374-409 | one loop iteration of phase 2 fails exactly when `Batch.ExecuteStep` does, with the same error; otherwise it leaves exactly the step's progress |
| Contract.SwiftRemit.ExecuteBatch | src/lib.rs:369-410 | the loop ends with exactly the result of `Batch.Execute`; after a failure the storage is what it was before phase 2 |
| Contract.SwiftRemit.BatchSettle | src/lib.rs:292-418 | the method's new storage, result and published events are exactly those of `Batch.BatchSettle` |

## Left out

- The token contract is not modelled. Token transfers are logged as `Transfer` values from and to the contract's custody; balances, and transfers that trap for lack of funds, are not modelled.
- `require_auth` is modelled as membership in the call's set of signers. The source aborts the call when it fails; the model returns the model-only error `Unauthorized`, with the same rollback.
- The address check (`validate_address`) is an opaque predicate of the environment. src/validation.rs is not part of this model.
- Storage is modelled as fields. src/storage.rs is not part of this model. The keys that `initialize` writes together (admin, token, rate, counter, pool) are present exactly when the admin is, and their reads fail with `NotInitialized` before that. src/errors.rs is not part of this model. src/lib.rs passes on with `?` whatever the storage reads and `validate_address` return (src/lib.rs:50, 107, 166, 232); the names `NotInitialized`, `RemittanceNotFound` and `InvalidAddress` for those errors are assumed, and a failed address check is modelled as `InvalidAddress`.
- Events carry their payloads only. Topics, the schema version, and the ledger sequence and timestamp stamped into each event (src/events.rs) are left out.
- The `log_*` calls write only to the debug log (src/debug.rs) and are left out.
- Batch.Progress: `success_count` is a `u32` in the source and an unbounded count in the model. The overflow it would reach after 2^32 entries is not modelled; nor is the `u32` batch length.
- Fees.ComputeFee: states the fee formula only for non-negative amounts. `create_remittance` rejects every other amount before it computes the fee.
- The class models `batch_settle` and `update_fee` as written. The corrected versions (`Batch.BatchSettleDeduplicated`, `Ledger.UpdateFeeIntended`) and their properties are modelled only at the specification level.
- `batch_settle` requires no authorization in the source, and the model requires none either: anyone may settle any Pending remittance whose checks pass.
- Concurrency, host resource limits and ledger TTL management are outside the contract's logic and are not modelled.

## Findings

| source | as written | input that shows it | evidently intended | confidence | as-written member | corrected member |
|---|---|---|---|---|---|---|
| src/lib.rs:330 | phase 1 checks each entry only against the stored settlement markers, and phase 2 never checks again, so a second entry with the same id passes | a batch `[id, id]` for one Pending, unexpired remittance: it succeeds, pays the agent `amount - fee` twice and adds the fee to the pool twice | reject the repeated entry as already settled (reason 12); `BatchProofs.DeduplicatedSuccessImpliesDistinct` proves the corrected coordinator settles only batches without repeats, and `BatchProofs.DeduplicationAgreesWhenDistinct` that it agrees with the code everywhere else | not executed | BatchProofs.DuplicateEntryPaysTwice | BatchProofs.DeduplicatedSuccessImpliesDistinct |
| src/lib.rs:81-82 | the old rate is read after the new rate is stored, so `FeeUpdated` reports the new rate twice | rate 100 bps, `update_fee(200)`: publishes `FeeUpdated(admin, 200, 200)` | read the old rate before storing the new one: `FeeUpdated(admin, 100, 200)` | not executed | Lifecycle.UpdateFeeReportsNewRateAsOld | Ledger.UpdateFeeIntended |
