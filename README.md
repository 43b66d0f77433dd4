# Transaction sync and balance reconciliation of a custodial wallet backend

This project models the core of a wallet backend in Dafny. The backend
mirrors an LND node's on-chain transaction ledger into a Firestore document
store and keeps balance sums up to date on addresses and wallets. It covers:

- **The sync run** (`syncTransactions`), in both versions. The current one
  handles incoming transactions and outgoing payments. The older one handles
  incoming transactions only. A run reads the block-height cursor
  (`config/lnd_sync`) and filters the node's listing down to the relevant
  transactions, oldest first. It cuts them into batches of 300. Each batch
  writes its records and the next cursor in one atomic write batch.
- **The balance triggers.** Each one rescans a collection, folds it into
  sums and writes them into a parent document:
  - the address level: `onIncomingTxStatusUpdate` and the older
    `updateAddressBalance`;
  - the wallet's incoming half: `onAddressBalanceUpdate` and the older
    `updateWalletBalance`;
  - the wallet's outgoing half: `onOutgoingTxStatusUpdate`;
  - the combined wallet recompute, which also derives `total_settled`:
    `onTransactionStatusUpdate`.
- **`makePayment`**: its guards, the funds check against `total_settled`,
  the broadcast label, and the payment entry it records.
- **`createWallet`**, in both versions: its guards and the three documents
  it writes in one batch.

## How it is modelled

- **The store** (`store.dfy`) is a map from collection to a map from
  document id to document. A collection is a top-level collection or a
  sub-collection under a document. A document maps field names to values.
  Three write kinds are modelled, matching Firestore's behaviour:
  - `set` overwrites the document;
  - `set` with `{merge: true}` deep-merges nested maps;
  - `update` replaces top-level fields and fails with NOT_FOUND on a missing
    document.

  A write batch is a sequence of `set`s applied all together. A query
  snapshot is any listing of a collection. Every fold over a snapshot is
  proved equal to an order-free sum over the collection (`Aggregates.FoldIsSum`).
- **Triggers and callables as methods.** Each trigger and each callable is
  a method over a `Database` object. Each method is proved equal to a
  function of the store before the call, and the properties are lemmas
  about those functions.
- **Arithmetic in the folds** (`values.dfy`) follows JavaScript's `+`:
  - a missing field (`undefined`) makes the sum NaN;
  - `null` counts as 0;
  - once a sum is NaN it stays NaN;
  - such a sum is written back as NaN.
- **Inputs** stand in for the node and the outside world:
  - the ledger listing, whether the node is active, the node's answers;
  - the address-format check;
  - the generated wallet id, the clock, and whether a batch commit
    succeeds.

  Timestamps are opaque values.

Behaviour of the code worth knowing:

- **Address balance fields.** The address trigger `onIncomingTxStatusUpdate`
  writes `address_balance_confirmed` and `address_balance_unconfirmed`; the
  older `updateAddressBalance` writes `confirmed_balance` and
  `pending_balance`.
- **Outgoing statuses from the sync.** The sync writes UNCONFIRMED on an
  outgoing record below six confirmations, whatever the block height, and
  CONFIRMED from six on.
- **Status can regress.** A stored CONFIRMED outgoing record is rewritten as
  UNCONFIRMED when the ledger reports fewer than six confirmations
  (`SyncProperties.ConfirmedCanRegress`).
- **The cursor rewind is lost between batches.** In the current sync, the
  earliest unconfirmed block does not survive from one batch to the next
  (see Findings).
- **Only the combined trigger derives `total_settled`.**
  `onTransactionStatusUpdate` computes it, from the `transactions`
  collection; the half triggers write only their own sums.
- **The label's third field is the destination address.** `makePayment`
  puts the destination address in the label's third field, and the sync uses
  that field as the record id under `outgoing_txs`. `makePayment`'s own
  entry goes to `transactions`, which the sync never matches
  (`Interplay.BroadcastSeenBySync`).
- **Payments to one address share a record.** Two payments from one wallet
  to one address update the same `outgoing_txs` record, and each reads it as
  the store held it when the batch started. Running such a batch again can
  rewrite the record and move the cursor
  (`SyncRerun.RerunSharedPaymentRecord`). When no two payments of a batch
  share a record, a second run leaves every record as the first left it
  (`SyncRerun.RerunBatchRecords`).

## Model

| member | source | states |
|---|---|---|
| `Ledger.FirstKnown` | functions/functions/sync_transactions.js:54-55 | the result is the first destination address in the known set, and none exactly when no destination is known |
| `Ledger.PaymentLabelSplits` | functions/functions/make_payment.js:98 | splitting `payment:<wallet>:<address>` on ':' gives back its three pieces, and the label starts with "payment" |
| `SyncCommon.CurrentBlockHeight` | functions/functions/sync_transactions.js:352-355 | a missing cursor document reads as 0; a numeric stored `block_height` is returned as stored; a missing or non-numeric one reads as 0 (see Left out) |
| `SyncCommon.GetIds` | functions/functions/sync_transactions.js:332-346 | the ids listed are exactly the documents of the collection, and the list is empty iff the collection is |
| `SyncCommon.ClassifyKeeps` | functions/functions/sync_transactions.js:51-68 | a positive amount is kept iff some destination is known, tagged with the first known one; a non-positive amount is kept iff its label starts with "payment" (current version only) |
| `SyncCommon.RelevantOfReverse` | functions/functions/sync_transactions.js:51 | filtering the reversed listing is reversing the filtered listing: the relevant list is oldest first |
| `SyncCommon.FilterRelevant` | functions/functions/sync_transactions.js:51-68 | the loop over the ledger builds exactly the filter of the reversed listing |
| `Batching.Partition` | functions/functions/sync_transactions.js:74-91 | there are ceil(n/300) runs, each a non-empty range inside [0, n); consecutive runs are adjacent, all but the last hold 300 indices, and the last ends at n |
| `Batching.IndexInOneRun` | functions/functions/sync_transactions.js:80-91 | every index lies in run i/300 and in no other, so each transaction is processed exactly once |
| `Batching.RunSliceIsSlice` | functions/functions/sync_transactions.js:88-96 | batch `run` is the slice `[start, end)` of the relevant list |
| `Sync.ProcessIncoming` | functions/functions/sync_transactions.js:209-248 | adds one overwriting write at `(address, tx_hash)` and updates the cursors as `IncomingStep` says |
| `Sync.ProcessOutgoing` | functions/functions/sync_transactions.js:263-325 | reads the stored record or synthesizes one, refreshes it and writes it only when the status changed, as `OutgoingStep` says |
| `Sync.ProcessTransaction` | functions/functions/sync_transactions.js:148-170 | dispatches on the sign of the amount; amount 0 writes nothing and leaves the cursors |
| `Sync.RunBatch` | functions/functions/sync_transactions.js:140-195 | the loop over `[start, end)` commits the records and the cursor together, or nothing when a transaction fails |
| `Sync.CommitBatch` | functions/functions/sync_transactions.js:172-194 | the cursor document is the batch's last write, and the batch is committed as one |
| `Sync.RunAll` | functions/functions/sync_transactions.js:86-101 | the loop over the batch runs, each batch seeded with the previous cursor and the field read back from the result |
| `Sync.SyncTransactions` | functions/functions/sync_transactions.js:17-119 | the whole callable: the store afterwards and the failure are those of `SyncSpec` |
| `SyncProperties.IncomingStepWrites` | functions/functions/sync_transactions.js:212-229 | one write at `addresses/{address}/incoming_txs/{tx_hash}`, with the ledger amount and block height, counted as confirmed iff there are at least 6 confirmations |
| `SyncProperties.OutgoingStepWrites` | functions/functions/sync_transactions.js:290-324 | the record is written iff the stored status differs from the ledger status; on a write, status, fee and timestamp are refreshed, the block height is set when confirmed or when > 0, and every other field is kept; with no write the cursors do not move |
| `SyncProperties.ConfirmedCanRegress` | functions/functions/sync_transactions.js:290-296 | a stored CONFIRMED payment is rewritten as UNCONFIRMED when the ledger reports fewer than 6 confirmations |
| `SyncProperties.MissingPaymentIsSynthesized` | functions/functions/sync_transactions.js:277-289 | a missing payment record is written with `to_address` and `created` "UNKNOWN", amount \|amount\| − fees and txid = tx hash |
| `SyncProperties.PaymentLabelTarget` | functions/functions/sync_transactions.js:267-273 | the sync reads `makePayment`'s label as (wallet, destination address), and `outgoing_txs` is not `transactions` |
| `SyncProperties.StickyEarliest` | functions/functions/sync_transactions.js:299-300 | once the earliest unconfirmed block is positive, nothing later in the batch changes it |
| `SyncProperties.FirstUnconfirmedWins` | functions/functions/sync_transactions.js:233-237 | the first unconfirmed incoming transaction with a positive block fixes the earliest block for the rest of the batch |
| `SyncProperties.MempoolLeavesEarliestUnset` | functions/functions/sync_transactions.js:234-237 | an unconfirmed incoming transaction at block 0 leaves an unset earliest block at −1 |
| `SyncProperties.LastConfirmedIsLast` | functions/functions/sync_transactions.js:240-241 | after confirmed transactions, the last confirmed block is the block of the last one processed |
| `SyncProperties.LastConfirmedNotMax` | functions/functions/sync_transactions.js:176-177 | confirmed blocks 110 then 105 give next cursor 106, not 111 |
| `SyncProperties.IdleBatchAdvancesCursor` | functions/functions/sync_transactions.js:162-165 | a batch of amount-0 transactions writes only the cursor, from unchanged cursor variables |
| `SyncProperties.BatchFoldAppend` | functions/functions/sync_transactions.js:148-170 | running a batch over `a + b` is running it over `a`, then over `b` from where `a` left the cursors |
| `SyncProperties.RunBatchEffect` | functions/functions/sync_transactions.js:176-188 | a committed batch changes only record collections and the cursor document, which holds the height the batch returns |
| `SyncProperties.RunsEffect` | functions/functions/sync_transactions.js:86-101 | after any number of batches, the stored cursor is the run's last height and only records and the cursor changed |
| `SyncProperties.SyncEffect` | functions/functions/sync_transactions.js:86-110 | a sync changes only record collections and the cursor document, which always holds the height the run ends with |
| `SyncProperties.SyncEarlyExits` | functions/functions/sync_transactions.js:24-118 | no addresses and no wallets: return with no write; node down: ABORTED with no write; nothing relevant: the cursor is rewritten unchanged |
| `SyncProperties.IncomingFoldIgnoresStore` | functions/functions/sync_transactions.js:209-229 | incoming and zero-amount transactions do not depend on the store |
| `SyncProperties.RerunIncomingBatch` | functions/functions/sync_transactions.js:221-229 | re-running a batch of incoming transactions on the store it produced changes nothing |
| `SyncRerun.FirstRunMakesRecordsCurrent` | functions/functions/sync_transactions.js:263-317 | after a batch that goes through with no two payments on one record, every payment's record exists and holds the ledger's status (UNCONFIRMED below six confirmations, else CONFIRMED) |
| `SyncRerun.RerunFold` | functions/functions/sync_transactions.js:148-170 | over a store where every payment's record holds the ledger's status, the batch goes through from any cursors and writes exactly the first run's writes minus those to `outgoing_txs` |
| `SyncRerun.RerunBatchRecords` | functions/functions/sync_transactions.js:140-195 | re-running a batch with no two payments on one record, from any cursors, on the store it produced goes through and leaves every collection but `config` as it was |
| `SyncRerun.RerunSharedPaymentRecord` | functions/functions/sync_transactions.js:263-317 | two payments from one wallet to one address share a record: the first run leaves it UNCONFIRMED with cursor 110, the re-run rewrites it CONFIRMED with the first payment's fee and cursor 106 |
| `SyncProperties.BatchKeepsEarliest` | functions/functions/sync_transactions.js:192-194 | a batch entered with an earliest block returns it as both its cursor and its returned earliest block |
| `SyncProperties.CorrectedCarryKeepsEarliest` | functions/functions/sync_transactions.js:96-100 | carrying the returned field, an earliest unconfirmed block found in one batch is where the run ends |
| `SyncProperties.CarryDropsEarliest` | functions/functions/sync_transactions.js:99-100 | as written, the carried value is always undefined: 301 transactions (one unconfirmed at 100, then 300 with distinct hashes confirmed at 105) end at 106, while the corrected carry ends at 100 |
| `LegacySync.LegacyProcess` | functions/sync_transactions.js:149-187 | one iteration: the RECEIVE record is set and listed as confirmed or unconfirmed, and the loop variables are updated as `LegacyStep` says |
| `LegacySync.LegacyRunBatch` | functions/sync_transactions.js:139-210 | the batch loop and commit, equal to `LegacyRunBatchSpec` |
| `LegacySync.LegacyRunAll` | functions/sync_transactions.js:71-85 | the run loop gathering both lists and carrying the first unconfirmed block |
| `LegacySync.SyncTransactions` | functions/sync_transactions.js:11-106 | the whole older callable, equal to `LegacySyncSpec` |
| `LegacySyncProperties.LegacyRelevantIncoming` | functions/sync_transactions.js:41-52 | every kept transaction has a positive amount and is tagged with a known, non-empty address |
| `LegacySyncProperties.NothingKnownNothingKept` | functions/sync_transactions.js:43-49 | with no known address nothing is kept |
| `LegacySyncProperties.RecordsPartition` | functions/sync_transactions.js:175-186 | each transaction is listed once, as confirmed or as unconfirmed |
| `LegacySyncProperties.LegacyFoldOk` | functions/sync_transactions.js:165-171 | a batch fails iff some transaction cannot name its document |
| `LegacySyncProperties.LegacyFoldRecords` | functions/sync_transactions.js:175-186 | a batch appends its records to the two lists, split by status, in order |
| `LegacySyncProperties.LegacyStickyFirst` | functions/sync_transactions.js:177-178 | once the first unconfirmed block is positive, the batch keeps it |
| `LegacySyncProperties.MempoolBatchRewindsCursor` | functions/sync_transactions.js:142 | a batch holding only a block-0 unconfirmed transaction stores cursor 0, since the last confirmed block restarts at −1 |
| `LegacySyncProperties.LegacySyncLists` | functions/sync_transactions.js:81-82 | a completed run reports every relevant transaction exactly once, confirmed and unconfirmed lists in order, lengths summing to the relevant count |
| `LegacySyncProperties.LegacyCarryKeepsFirst` | functions/sync_transactions.js:78-83 | the first unconfirmed block is carried between batches and is the run's final height |
| `LegacySyncProperties.LegacySyncEffect` | functions/sync_transactions.js:84-101 | only incoming records and the cursor change; the stored cursor is the returned height; node down gives ABORTED with no write |
| `LegacySyncProperties.LegacyNoAddressesStillRuns` | functions/sync_transactions.js:13-23 | an empty address collection is only reported: the run goes on and rewrites the cursor unchanged |
| `Aggregates.FoldIsSum` | functions/functions/triggers/on_incoming_tx_status_update.js:16-24 | the reduce over any snapshot equals the order-free sum over the collection |
| `Aggregates.SplitFold` | functions/functions/triggers/on_incoming_tx_status_update.js:17-24 | the one-pass two-way reduce computes the confirmed and the unconfirmed sums |
| `Aggregates.StatusSplitCoversAll` | functions/functions/triggers/on_incoming_tx_status_update.js:18-22 | the confirmed and unconfirmed sums together make the sum of all amounts |
| `Aggregates.StatusSumsAreFiltered` | functions/functions/update_address_balance.js:17-24 | the confirmed sum is Σ amount over CONFIRMED documents, the other over every other status |
| `Aggregates.TallyFold` | functions/functions/triggers/on_transaction_status_update.js:31-47 | the one-pass four-way reduce computes each bucket's sum |
| `Aggregates.TallyFoldIsTallyOf` | functions/functions/triggers/on_transaction_status_update.js:25-47 | the four-way reduce over any snapshot equals the four order-free sums |
| `Aggregates.BucketsCoverAll` | functions/functions/triggers/on_transaction_status_update.js:37-47 | every record lands in exactly one bucket: the four sums make the sum of all records |
| `Aggregates.BucketSumIsFiltered` | functions/functions/triggers/on_transaction_status_update.js:34-42 | each bucket is Σ (amount for INCOMING, amount + fee otherwise) over the records of that direction and status |
| `Aggregates.SumAbsorbs` | functions/functions/triggers/on_address_balance_update.js:30-35 | one document with a missing or non-numeric field makes the sum NaN |
| `Triggers.RecomputeAddressWrites` | functions/functions/triggers/on_incoming_tx_status_update.js:16-32 | NOT_FOUND iff the address is missing; otherwise the two fields get Σ CONFIRMED and Σ other amounts, every other field and document is kept |
| `Triggers.RecomputeAddressEmpty` | functions/functions/triggers/on_incoming_tx_status_update.js:24 | no incoming transactions gives 0 and 0 |
| `Triggers.RecomputeAddressIdempotent` | functions/functions/triggers/on_incoming_tx_status_update.js:16-32 | triggering again on the store it produced changes nothing |
| `Triggers.RecomputeAddressDefinesConfirmed` | functions/functions/triggers/on_incoming_tx_status_update.js:26-32 | after the trigger, the address holds its confirmed sum in `address_balance_confirmed` |
| `Triggers.OnIncomingTxStatusUpdate` | functions/functions/triggers/on_incoming_tx_status_update.js:7-34 | the trigger's effect is `RecomputeAddress` with the current field names |
| `Triggers.UpdateAddressBalance` | functions/functions/update_address_balance.js:7-32 | the older trigger's effect is `RecomputeAddress` with `confirmed_balance`/`pending_balance` |
| `Triggers.MergedHalfShape` | functions/functions/triggers/on_address_balance_update.js:37-46 | a half merge sets `balance.<side>.{confirmed,unconfirmed}` and `last_updated`, keeping every other field at all three levels |
| `Triggers.RecomputeWalletIncomingWrites` | functions/functions/triggers/on_address_balance_update.js:12-46 | no write when the wallet is missing or no address names it; otherwise `balance.incoming` gets the two sums over the wallet's addresses, `outgoing` and `total_settled` are kept |
| `Triggers.OnAddressBalanceUpdate` | functions/functions/triggers/on_address_balance_update.js:9-48 | the trigger's effect, summing `address_balance` as the confirmed balance |
| `Triggers.IncomingReadsUnwrittenField` | functions/functions/triggers/on_address_balance_update.js:31 | as written, a wallet with an address in the shape the address trigger leaves gets NaN as incoming confirmed |
| `Triggers.CorrectedIncomingIsNumber` | functions/functions/triggers/on_address_balance_update.js:30-35 | summing `address_balance_confirmed` gives a number whenever every address holds one |
| `Triggers.RecomputeWalletLegacyWrites` | functions/functions/update_wallet_balance.js:16-47 | no write when the wallet is missing or unmatched; otherwise `confirmed_balance` and `pending_balance` are the sums of the same address fields, and only they and `last_updated` change |
| `Triggers.UpdateWalletBalance` | functions/functions/update_wallet_balance.js:9-49 | the older wallet trigger's effect is `RecomputeWalletLegacy` |
| `Triggers.RecomputeOutgoingWrites` | functions/functions/triggers/on_outgoing_tx_status_update.js:13-36 | with no existence check, `balance.outgoing` is Σ amount (no fee) of CONFIRMED and of other records; `incoming`, `total_settled` and other fields are kept |
| `Triggers.RecomputeOutgoingEmpty` | functions/functions/triggers/on_outgoing_tx_status_update.js:25 | an empty `outgoing_txs` writes zeros |
| `Triggers.OnOutgoingTxStatusUpdate` | functions/functions/triggers/on_outgoing_tx_status_update.js:8-39 | the trigger's effect is `RecomputeOutgoing` |
| `Triggers.OutgoingTriggerSettledIff` | functions/functions/triggers/on_outgoing_tx_status_update.js:27-36 | on a settled wallet, the formula still holds afterwards iff the new outgoing sums add up to the old ones |
| `Triggers.RecomputeWalletWrites` | functions/functions/triggers/on_transaction_status_update.js:17-70 | no write when the wallet is missing or `transactions` is empty; otherwise the wallet holds only `balance` and `last_updated`, each bucket summed by direction and status |
| `Triggers.BalanceDocSettled` | functions/functions/triggers/on_transaction_status_update.js:49-52 | `total_settled` = incoming confirmed − outgoing confirmed − outgoing unconfirmed, and the formula holds iff those three are numbers |
| `Triggers.RecomputeWalletSettles` | functions/functions/triggers/on_transaction_status_update.js:31-52 | when every record contributes a number, the wallet satisfies the settled formula afterwards |
| `Triggers.EntryWithoutFeeMakesSettledNaN` | functions/functions/triggers/on_transaction_status_update.js:34-35 | an OUTGOING record without `fee` makes `total_settled` NaN |
| `Triggers.OnTransactionStatusUpdate` | functions/functions/triggers/on_transaction_status_update.js:8-80 | the trigger's effect is `RecomputeWallet` |
| `Payment.FindTx` | functions/functions/make_payment.js:128-130 | the first listed transaction with the txid, and none iff no listed transaction has it |
| `Payment.MakePayment` | functions/functions/make_payment.js:21-178 | the callable's store and error are those of `MakePaymentSpec`; the coins are sent, with the payment label, iff every guard passed and the node is active |
| `Payment.PaymentEffect` | functions/functions/make_payment.js:72-177 | a call either fails with no write, or passes every guard and writes exactly the payment entry at `wallets/{wallet}/transactions/{txid}` |
| `Payment.PaymentGuardOrder` | functions/functions/make_payment.js:23-176 | the outcomes in the code's order: no caller: PERMISSION_DENIED; empty uid: INTERNAL; unknown user: NOT_FOUND; missing or falsy argument, then malformed address: INVALID_ARGUMENT; amount < 2500, then fee < 1: FAILED_PRECONDITION; no usable active wallet id, wallet or balance: INTERNAL; not enough funds: FAILED_PRECONDITION; node not active: UNAVAILABLE; send failure or empty txid: UNKNOWN |
| `Payment.FundsGuardIff` | functions/functions/make_payment.js:76-85 | a numeric balance passes iff it is ≥ amount + 250·fee + 1000; NaN, null or missing never passes |
| `Payment.PaymentEntryFields` | functions/functions/make_payment.js:110-147 | the entry is OUTGOING with txid, amount and address; it is MEMPOOL with the listed fee and time iff the listing holds the txid, NEW without fee otherwise |
| `Interplay.BroadcastSeenBySync` | functions/functions/make_payment.js:94-99 | the broadcast is kept by the current filter and dropped by the older one; the sync matches it under `outgoing_txs/{destination address}` |
| `Interplay.UnlistedPaymentPoisonsSettled` | functions/functions/make_payment.js:110-157 | a payment not yet listed is stored NEW without fee, after which the wallet's `total_settled` is NaN and every further payment is refused |
| `Interplay.UnfundedWalletFails` | functions/functions/make_payment.js:78-85 | a `total_settled` of 0 is falsy, so the funds guard fails |
| `Interplay.FreshWalletReads` | functions/functions/create_wallet.js:56-88 | after `createWallet`, the user's active wallet is the new one and its `total_settled` is 0 |
| `Interplay.FreshWalletCannotPay` | functions/functions/create_wallet.js:58 | a freshly created wallet cannot pay: any payment past the argument guards fails with FAILED_PRECONDITION |
| `Interplay.LegacyUserCannotPay` | functions/create_wallet.js:69-74 | a user made by the older `createWallet` has no `active_wallet_id`, so a payment fails internally |
| `Provisioning.CreateWallet` | functions/functions/create_wallet.js:11-108 | the callable's store and result are those of `CreateWalletSpec` |
| `Provisioning.CreationGuardOrder` | functions/functions/create_wallet.js:14-51 | no caller: UNAUTHENTICATED; existing user: ALREADY_EXISTS; node down or no address: ABORTED; success returns the caller and the address |
| `Provisioning.CreateWalletEffect` | functions/functions/create_wallet.js:91-107 | all or nothing: a failure writes nothing; a success returns the new id and writes exactly the wallet, the user and the address documents |
| `Provisioning.CommitThree` | functions/functions/create_wallet.js:91-94 | three sets on three collections each add one document and leave the rest of the store alone |
| `Provisioning.NewWalletSettled` | functions/functions/create_wallet.js:56-67 | every balance starts at 0 and the settled formula holds |
| `Provisioning.CreatedDocumentsLinked` | functions/functions/create_wallet.js:68-88 | the user's active and associated wallet is the new wallet, owned by the user, whose only address maps back to it |
| `LegacyProvisioning.LegacyCreateWallet` | functions/create_wallet.js:11-90 | the older callable's store and result are those of `LegacyCreateWalletSpec` |
| `LegacyProvisioning.LegacyCreateWalletEffect` | functions/create_wallet.js:77-89 | all or nothing, with `current_balance` 0, `current_address`, `addresses` and `current_wallet_id` |
| `LegacyProvisioning.VersionsFailAlike` | functions/create_wallet.js:14-50 | both versions fail on the same inputs with the same error and no write, and return the same id |
| `LegacyProvisioning.LegacyDocumentsShape` | functions/create_wallet.js:53-74 | the older wallet has a number balance and no balance tree, so the settled formula does not hold; the user has `current_wallet_id` but no `active_wallet_id` |

## Findings

| source | as written | input that shows it | evidently intended | confidence | as-written member | corrected member |
|---|---|---|---|---|---|---|
| functions/functions/sync_transactions.js:100 | the run loop carries `batchResult.firstUnconfirmedBlock`, a field `runBatch` does not return (it returns `earliestBlockWithUnconfirmed`, line 194), so each batch starts with no earliest unconfirmed block | 301 relevant incoming transactions: the first unconfirmed at block 100, the other 300, each with its own hash, confirmed at block 105; the first batch stores 100, the second stores 106 | the earliest unconfirmed block is carried, so the run ends with cursor 100 and the unconfirmed transaction is rescanned | high; not executed | `SyncProperties.CarryDropsEarliest` | `SyncProperties.CorrectedCarryKeepsEarliest` |
| functions/functions/triggers/on_address_balance_update.js:31 | the wallet's incoming confirmed balance sums `address_balance`, a field no function writes | a wallet with one address whose document the address trigger updated (`address_balance_confirmed` set, no `address_balance`) gets NaN | sum `address_balance_confirmed`, the field `on_incoming_tx_status_update.js:28` writes | high; not executed | `Triggers.IncomingReadsUnwrittenField` | `Triggers.CorrectedIncomingIsNumber` |

The run loop (`Sync.Runs`) and the incoming wallet trigger
(`Triggers.RecomputeWalletIncoming`) take the field they read as a
parameter. The methods that model the code pass the field as written. The
corrected lemmas instantiate the same definitions with the intended field.

## Left out

- The node connection (`init/lnd_init.js`: gRPC setup, wallet unlock,
  secret retrieval) is not part of this model; "node active" is a boolean
  input.
- `get_transactions.js`, `wallet_balance.js` and `index.js` are not part of
  this model: they are pass-through wrappers and sample handlers.
- The `getTransactions`, `sendCoins` and `newAddress` RPCs are not modelled;
  their results are inputs.
- The address-format check of `makePayment` is a boolean input.
- The mempool wait (`setTimeout`) and all logging are left out.
- The wall clock (`new Date()`), `FieldValue.serverTimestamp()` and
  `Timestamp.fromMillis` are opaque values.
- The triggers' delivery, `runTransaction`'s optimistic retries and
  concurrent trigger runs are not modelled. Each trigger body and each
  committed batch is one atomic step.
- The store's 500-writes-per-batch limit is not enforced.
- `result.transactions` being undefined is not modelled: the listing is
  always a list.
- Document ids containing '/' are not modelled. An empty id, where the
  store throws, is modelled as an internal error.
- Amounts are unbounded integers. JavaScript numbers lose precision above
  2^53; that is not modelled.
- `Values.Term`: a string, list, map or timestamp operand of `+` makes a
  JavaScript sum a string or NaN. The model treats every such sum as NaN and
  writes it back as NaN, not as the concatenated string.
- `SyncCommon.CurrentBlockHeight`: a cursor document whose `block_height`
  is missing or not a number is read as 0. The code hands the raw value to
  `getTransactions` and, when nothing is relevant, writes it back unchanged;
  a string there would also make `lastConfirmedBlock + 1` a concatenation.
- `Payment.MakePayment`: `amount` and `fee` are integers. The callable's
  payload is untyped JSON. A numeric string passes the guards by coercion,
  and `amount + fee * 250 + 1000` then concatenates instead of adding. A
  non-numeric string passes every guard, because comparisons with NaN are
  false. A fractional amount is accepted and stored. None of these is
  modelled.
- `Payment.FundsGuardIff`: only numeric, NaN, null and missing balances are
  characterised. For a string `total_settled`, the model lets any non-empty
  string pass the `<` check, where JavaScript coerces the string to a number.
