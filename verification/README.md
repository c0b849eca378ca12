# SPV Wallet engine: a verified model of the UTXO ledger and of drafts, BEEF and status handling

The engine of SPV Wallet keeps a ledger of unspent outputs (UTXOs) for many extended public keys
(xpubs). A client asks for a *draft*: the engine reserves UTXOs of the client's xpub, estimates a fee,
and splits the change. The client signs the draft and has it *recorded*, which marks its inputs as
spent, adds UTXOs for the outputs that pay known scripts, and moves the balances. Drafts *expire*,
recorded transactions can be *reverted*, transactions arrive from outside, and a periodic job follows
the status of each transaction on chain. For its receivers the engine packs a transaction with its
unmined ancestors as BEEF (BRC-62).

This project models that engine and proves what its parts promise together.

## How the model is laid out

| file | content |
|---|---|
| `Common.dfy`, `Sums.dfy`, `Uint64.dfy` | vocabulary; finite sums over sets; unsigned 64-bit and rational-ceiling arithmetic |
| `Ledger.dfy` | the ledger as a value, and what every action does to it |
| `LedgerInvariant.dfy`, `LedgerSteps.dfy`, `LedgerUndo.dfy` | the ledger invariant, and that every action keeps it |
| `LedgerEffects.dfy` | what recording, expiry and revert answer and do, column by column |
| `LedgerRuns.dfy` | theorems over whole runs |
| `LedgerExamples.dfy` | runs from the empty engine in which it departs from what it promises |
| `LedgerTotals.dfy` | the total of all balances, from draft to recording |
| `XpubTable.dfy`, `UtxoTable.dfy`, `PendingRows.dfy`, `IdOrder.dfy`, `Engine.dfy` | the classes that carry the actions out, loop by loop and hook by hook |
| `ChangeSplit.dfy`, `DraftMath.dfy`, `DraftPaths.dfy`, `DraftResult.dfy` | the draft's arithmetic on values |
| `DraftPayees.dfy` | whom the raw transaction of a draft pays |
| `DraftExamples.dfy` | small configurations for which the builder departs from what it promises |
| `DraftBuilder.dfy` | the class that builds a draft |
| `DraftRuns.dfy` | the builder's effect as a run of the engine, and the fee from the empty engine to a recording |
| `BeefAncestry.dfy`, `BeefRun.dfy` | what a BEEF must contain; the ancestor worklist on numbers |
| `BeefOrder.dfy` | which failure of a collection is reported |
| `Beef.dfy` | the ancestor worklist over objects with links |
| `TxStatus.dfy` | the status column, its writers and the sync job |

Code that updates fields or rows is a class whose methods are proved to do what a function on values
says; the theorems are about those functions. The main methods also state what they answer and what they
change in terms of the stored rows alone, without those functions. Concurrency appears in two ways. An action of the ledger
is one atomic step, but drafting is three kinds of steps (reservation, change addresses, save) that
other steps may separate, and a failing builder stops after any of them: a run carries the reservations
of drafts that are not saved yet, and that they survive the steps of others is proved, not assumed. The
writers of the status column and of the xpub table are not atomic at all: each writes with a copy it may
have loaded long before.

## Main results

* **When the balances are right**: nothing compares a transaction with its draft, and it is not
  assumed here that they match. With the input check on, the balance of every xpub is the sum of its
  UTXOs without a spending transaction after each step of a run exactly when each revert in it is *clean*: the
  inputs of its draft that are spent are spent by the reverted transaction (`LedgerRuns.RunBalancesExactly`).
  Along such a run the whole invariant holds, whatever the setting of the check (`LedgerRuns.RunKeepsInv`): spent
  UTXOs name the live transaction that spends them, stored values are known outputs minus inputs, no balance is
  negative. If transactions do spend the inputs of their drafts, every revert is clean
  (`LedgerRuns.MatchingRunIsClean`). For one revert without any assumption on what transactions spend, the
  condition is an equation of sums (`LedgerUndo.RevertedBalance`).
* **What every run keeps**: open drafts hold exactly their inputs, dead ones nothing; owners, derived
  addresses and markers are in order (also `LedgerRuns.RunKeepsInv`).
* **No UTXO is promised twice**: over every run, however reservations and saves interleave, two drafts,
  saved or not, never claim the same UTXO (`LedgerRuns.RunKeepsDraftsDisjoint`), and the numbers handed
  out on both chains of an xpub are consecutive (`LedgerRuns.NumbersConsecutive`).
* **Revert undoes record**, for any transaction the input check lets through
  (`LedgerRuns.RevertUndoesRecord`), and a second revert fails at any later time
  (`LedgerRuns.SecondRevertFails`).
* **Dead drafts stay dead** as long as what is recorded for them has an input the wallet knows, although no
  code tests their status (`LedgerRuns.DeadDraftsStayDead`).
* **Paged reservation is one pass**: for every page size it takes the shortest non-empty sufficient
  prefix of the spendable list, or gives everything back (`UtxoTable.Utxos.ReserveSpendable`).
* **Drafts are conserved** on every path, with the exact condition under which the unchecked
  subtractions do no harm (`DraftPaths.PlanConservesExactly`, `DraftResult.SendAllResult`). What the builder does
  is a run of the engine (`DraftRuns.BuilderIsRun`), and recording a transaction that spends such a draft's inputs
  costs the wallet exactly the fee and what is paid to others, with any run before the draft and any between draft
  and recording (`DraftRuns.DraftLifeCostsFee`).
* **A draft pays whom it was asked to pay**: the raw transaction is, in order, the script of each address,
  OP_RETURN and custom output with its amount, the scripts of each paymail provider one by one, and one output
  for each change destination; nobody else is paid. A send-all draft pays the rest to its target and the others
  what was asked for (`DraftBuilder.DraftTransaction.CreateTransactionHex`, `DraftPayees.MadeDraftPays`).
* **What a recording does to the rows**: each output with satoshis and a known script becomes a row of the
  script's owner with the amount and the script's type, neither reserved nor spent; paid to a key hash, it is
  spendable at once. Each known input names the transaction as its spender. A new transaction from outside
  is never stored without a broadcast. Which error wins is stated for every refusal
  (`Engine.Engine.RecordOutgoing`, `Engine.Engine.RecordIncoming`).
* **BEEF collection** ends on every store, cyclic ones too, and succeeds exactly when the whole ancestry
  is there. It then returns the least closed set with every needed input of the listed transactions
  linked; the objects reached from the subject by links are the ones that were read, and all of them are
  complete exactly when nothing without a Merkle path is reused. Otherwise it fails at a transaction nearest to
  the subject that lacks an input, and names all that are not stored, or else the first that cannot be read
  (`Beef.PrepareBEEFFactors`, `BeefOrder.FailureIsNearest`).
* **The cache of xpubs** is coherent, under every interleaving of writers with old copies, exactly when
  the last write to the xpub was well written (`XpubTable.InterleavedCoherence`).
* **Status**: a mined transaction always has a Merkle path, under every interleaving of the writers
  (`TxStatus.RunKeepsPaths`). Of saves that are applied one at a time to the stored record, the sync job
  makes at most two for each record, unless another writer takes a final status back
  (`TxStatus.SyncSavesBounded`). What every answer of ARC does to a record is stated for each record the job
  selects, in terms of its old columns (`TxStatus.Transactions.ProcessSyncTransactions`). The bound on saves is not
  claimed for saves of old copies.

## Where the code departs from what it promises

* The fee for new change outputs is subtracted from the change without a check. The result wraps when
  the change is smaller than that fee; the final check compares remainders modulo 2^64 and accepts it
  (`DraftExamples.ChangeFeeWraps`, `DraftPaths.FinalCheckBlind`). The exact condition is
  `DraftPaths.PlanConservesExactly`. Sending everything has the same defect
  (`DraftExamples.SendAllWraps`, exactly `DraftPaths.SendAllConserves`).
* Change added to existing outputs changes their amount but not their scripts, and the raw transaction
  is made from the scripts: the whole change goes to the miner (`DraftExamples.FlaggedChangeLost`, in general
  `DraftPaths.PlanHex`).
* The random strategy is safe for up to five destinations (`ChangeSplit.RandomUpToFive`) and loses its
  total with six (`ChangeSplit.RandomSixFails`), also in a draft, whose final check passes
  (`DraftExamples.SixOutputsWrap`); `ChangeSplit.RandomExactly` is the exact condition.
* UTXOs that the configuration includes become inputs of the draft and count as reserved, but they are neither
  reserved nor put into the raw transaction, whose outputs and fee they are supposed to pay for
  (`DraftResult.PlainHex`). Such a draft breaks the ledger invariant when it is saved
  (`LedgerUndo.StoreDraftExactly`), and reverting its transaction is not clean once another transaction has
  spent the included UTXO.
* A reservation of named UTXOs does not look at the draft column, so it can take UTXOs from another open
  draft (`LedgerExamples.NamingTakesFromOpenDraft`, exactly `LedgerRuns.ExplicitReservation`).
* The comment on reverting speaks of transactions that are not on chain; the code does not look at the
  status of the transaction, and `Ledger.Revert` follows the code.
* Nothing tests the status of a draft when a transaction is recorded for it. A dead draft accepts a
  transaction exactly when that spends no UTXO of the wallet (`LedgerRuns.DeadDraftAccepts`,
  `LedgerExamples.DeadDraftCompletes`). A draft with two inputs accepts two transactions, one for each;
  reverting the first frees what the second has spent, and the balances are wrong
  (`LedgerExamples.RevertFreesOthers`, from the empty engine `LedgerExamples.TwoForOneDraft`; the exact condition is
  `LedgerUndo.RevertBalancesExactly`).
* An amount below the dust limit is logged, but the draft goes on without a reservation and fails later
  with another error, if at all (`DraftBuilder.DraftTransaction.PrepareSeparateUtxos`).
* A failed conversion after a counter or balance has been written leaves the cached xpub behind its row
  (`XpubTable.CoherenceStep`). So does a writer that loads its copy before it waits for the lock, as the
  creation of a paymail address does (`XpubTable.LoadBeforeLock`).
* Every input is linked to a newly read transaction, and only the first one read with its id is expanded.
  If an unmined transaction with inputs is an input of two expanded ones, a copy without links hangs in
  the graph that the subject is serialised from (`Beef.PrepareBEEFFactors`,
  `BeefAncestry.SharedParent`).
* A rebroadcast can take a mined or problematic transaction back to BROADCASTED
  (`TxStatus.OthersRaise`).

## Model

| member | source | states |
|---|---|---|
| LedgerRuns.RunKeepsInv | engine/tx_service.go:43-176 | After every run of drafting, recording of any transactions, expiry, revert and the rest, reservations, owners and markers are right and unsaved drafts hold what they reserved; if each revert was clean, every balance is the sum of the xpub's unspent UTXOs and none is negative |
| LedgerRuns.RunBalancesExactly | engine/action_transaction.go:273-334 | With the input check on and any transactions recorded for any drafts, the balances are right after each step of a run exactly when each revert in it is clean |
| LedgerRuns.MatchingRunIsClean | engine/action_transaction.go:304-311 | If every transaction spends exactly the inputs of its draft, every revert is clean and the invariant holds |
| LedgerRuns.StepKeepsInv | engine/action_transaction.go:229-334 | Each single action keeps what lasts, and each but a revert that is not clean keeps the accounts |
| LedgerRuns.OthersKeepHolds | engine/model_utxos.go:197-215 | What a draft reserved before it is saved survives every step of the others: reservations, expiry, recording, revert |
| LedgerRuns.PendingCanBeSaved | engine/action_transaction.go:53-66 | When a draft is saved, whatever happened since it reserved its inputs, exactly these name it |
| LedgerInvariant.BalanceNonNegative | engine/model_xpubs.go:199-212 | A balance that equals the unspent satoshis is not negative, so the conversion after an increment cannot fail |
| LedgerInvariant.InputValuesSum | engine/tx_service.go:52-107 | The input loop takes from each xpub exactly the satoshis of its distinct known inputs |
| LedgerInvariant.OutputValuesSum | engine/tx_service.go:122-173 | The output loop gives each xpub exactly the satoshis of the outputs paid to its scripts |
| LedgerSteps.RecordedKeepsInv | engine/db_model_transactions.go:78-116 | Storing a transaction with its rows and running its hooks keeps the invariant, whatever the transaction spends |
| LedgerSteps.RecordOutgoingKeepsInv | engine/record_tx_strategy_outgoing_tx.go:23-39 | Recording any transaction for any draft keeps the invariant, whatever is refused |
| LedgerSteps.RecordIncomingKeepsInv | engine/record_tx_strategy_external_incoming_tx.go:19-34 | Recording a transaction from outside keeps the invariant |
| LedgerSteps.CheckInputsAll | engine/tx_service.go:61-79 | The input checks pass exactly when each known input is unspent, and reserved by this draft if the input check is on |
| LedgerSteps.OutgoingCanRecord | engine/tx_service.go:61-98 | Of the UTXOs of the wallet, a transaction that passes the checks spends unspent ones only |
| LedgerSteps.OutgoingSpendsOwn | engine/tx_service.go:66-79 | With the input check on, what is spent of the wallet are inputs of the transaction's own draft |
| LedgerEffects.OutgoingEffect | engine/tx_service.go:43-176 | Every answer and effect of recording for a draft in terms of the stored rows: which refusal wins, and what each row, draft and transaction is afterwards |
| LedgerEffects.IncomingEffect | engine/record_tx_strategy_external_incoming_tx.go:19-68 | The same for a transaction from outside, with the broadcast among the refusals |
| LedgerUndo.ReserveKeepsInv | engine/model_utxos.go:197-215 | Reserving UTXOs that no open draft holds keeps the invariant |
| LedgerUndo.StoreDraftExactly | engine/action_transaction.go:53-66 | Saving a new draft keeps the invariant exactly when the rows that name it are its inputs |
| LedgerUndo.ExpireKeepsInv | engine/cron_job_definitions.go:45-52 | Expiring a draft and lifting its reservations keeps the invariant |
| LedgerEffects.ExpiresOne | engine/cron_job_definitions.go:45-52 | The cleanup of one draft column by column: expired only when open and past its time, its reservations and nothing else released |
| LedgerUndo.RevertKeepsInv | engine/action_transaction.go:249-334 | A successful revert keeps what lasts, and the accounts if it is clean |
| LedgerUndo.RevertCovered | engine/action_transaction.go:286-299 | No balance underflows in a revert, clean or not |
| LedgerUndo.RevertedBalance | engine/action_transaction.go:273-334 | After a revert the balances are right exactly when the spent inputs of the draft are worth, for each xpub, what the transaction has spent of it |
| LedgerUndo.RevertBalancesExactly | engine/action_transaction.go:304-311 | Where transactions spend inputs of their own drafts: exactly when every input of the draft is unspent or spent by the reverted transaction |
| LedgerUndo.MatchingIsClean | engine/action_transaction.go:304-311 | A transaction that spends exactly its draft's inputs is reverted cleanly |
| LedgerUndo.RevertSucceeds | engine/action_transaction.go:229-267 | After any run a revert succeeds exactly for a stored, outgoing, not yet reverted transaction whose outputs are unspent |
| LedgerEffects.RevertAnswers | engine/action_transaction.go:229-334 | Which refusal of a revert wins, and what a successful one leaves in every row, draft and transaction, the lists of owners included |
| LedgerUndo.UndoBalance | engine/action_transaction.go:274-311 | Marking outputs deleted and freeing the draft's inputs moves the unspent satoshis of each xpub by what is freed minus what the transaction created |
| LedgerRuns.RevertUndoesRecord | engine/action_transaction.go:249-334 | Reserve, record, revert, after any run and for any transaction the input check lets through: all xpub rows and UTXO rows are as before the reservation, the same UTXOs are spendable, and reverting again fails |
| LedgerRuns.RevertAfterRecord | engine/record_tx_strategy_outgoing_tx.go:147-177 | A transaction just recorded can be reverted, once |
| LedgerRuns.SecondRevertFails | engine/action_transaction.go:317-330 | Once reverted, a transaction can be reverted at no later point of any run |
| LedgerRuns.SingleSpender | engine/tx_service.go:61-98 | Over every run in which transactions spend their drafts' inputs, a UTXO has at most one live spender, and its row names exactly that one |
| LedgerRuns.RunKeepsDraftsDisjoint | engine/model_utxos.go:68-73 | Over every run, however reservations and saves interleave, two drafts claim no common UTXO, before or after they are saved; two open drafts share no input |
| LedgerRuns.ExplicitReservation | engine/model_utxos.go:75-88 | After a reservation of named UTXOs the open drafts are disjoint exactly when none of the named UTXOs was held by an open draft |
| LedgerExamples.NamingTakesFromOpenDraft | engine/model_utxos.go:75-88 | From the empty engine: a second draft that names a UTXO of the open one gets it |
| LedgerRuns.DeadDraftsStayDead | engine/model_draft_transactions.go:793-811 | With the input check on, a canceled or expired draft is never completed, over every run in which what is recorded for it has an input the wallet knows |
| LedgerRuns.DeadDraftStep | engine/tx_service.go:66-79 | No single action brings a dead draft back or changes its inputs or final transaction |
| LedgerRuns.DeadDraftAccepts | engine/record_tx_strategy_outgoing_tx.go:113-139 | A dead draft accepts exactly the new transactions that spend no UTXO of the wallet |
| LedgerExamples.DeadDraftCompletes | engine/record_tx_strategy_outgoing_tx.go:113-139 | From the empty engine: an expired draft completes with a transaction which spends nothing of the wallet |
| LedgerExamples.RevertFreesOthers | engine/record_tx_strategy_outgoing_tx.go:113-139 | In any state that keeps the invariant, a draft with two unspent inputs accepts a transaction for each; the revert of the first then succeeds and makes a balance wrong |
| LedgerExamples.TwoForOneDraft | engine/action_transaction.go:304-311 | The same from the empty engine, with the input check on |
| LedgerRuns.NumbersConsecutive | engine/model_xpubs.go:224-289 | The numbers handed out on either chain over any run are consecutive and below the 32-bit limit, so none is handed out twice; they end at the counter unless it ran over |
| LedgerRuns.NextAddressIsFresh | engine/model_draft_transactions.go:688-730 | In every reachable state the next change address is not yet a destination |
| LedgerTotals.RecordingTotal | engine/db_model_transactions.go:86-98 | Recording moves the total of all balances by the known outputs minus the inputs |
| LedgerTotals.RunExtends | engine/model_save.go:12-99 | Over every run, amounts and owners of UTXOs and the inputs, outputs and fee of stored drafts never change |
| LedgerTotals.PlainDraftBalances | engine/model_draft_transactions.go:210-258 | A draft without change on existing outputs and without included UTXOs, whose inputs pay for outputs and final fee, is stored with raw outputs and fee worth its inputs |
| LedgerTotals.SendAllDraftBalances | engine/model_draft_transactions.go:262-279 | The same for sending everything to an address |
| LedgerTotals.RecordingCostsFee | engine/tx_service.go:82-153 | After any run, recording a transaction with such a draft's inputs (in any order) and outputs lowers the total of all balances by exactly the fee and the outputs to unknown scripts |
| LedgerTotals.NewDraftCostsFee | engine/action_transaction.go:42-70 | From the builder to the recording, with any run in between: if the inputs paid for outputs and final fee, the balances together lose exactly the fee and what is paid to others |
| DraftRuns.BuilderIsRun | engine/model_draft_transactions.go:210-258 | What a builder that names and includes no UTXOs does is a run from any state: one reservation of spendable UTXOs, change addresses, and the save if nothing fails |
| DraftRuns.DraftLifeCostsFee | engine/action_transaction.go:42-70 | The same as NewDraftCostsFee from the empty engine, with any run before the draft too |
| Engine.Transaction.ProcessInputs | engine/tx_service.go:43-111 | The loop over the inputs reports the first refusal, and otherwise collects the values, the xpubs and the rows of the specification |
| Engine.Transaction.ProcessOutputs | engine/tx_service.go:114-176 | The loop over the outputs adds exactly the values, the xpubs and the rows of the credited outputs |
| Engine.Engine.SavePending | engine/model_save.go:59-69 | The rows collected with a transaction are written in their order |
| Engine.Engine.CreditAll | engine/db_model_transactions.go:86-98 | The hook adds each value to its xpub, in whatever order the map is walked, without a conversion error |
| Engine.Engine.Store | engine/db_model_transactions.go:78-116 | After the save the rows, balances, the transaction and the draft are exactly as specified |
| Engine.Engine.PrepareOutgoing | engine/record_tx_strategy_outgoing_tx.go:100-139 | The checks before the save, in their order, and what they collect; the draft is found by its id alone, because the new transaction has no xpub yet (engine/model_transactions.go:135-149, engine/model_draft_transactions.go:85-93) |
| Engine.Engine.RecordOutgoing | engine/record_tx_strategy_outgoing_tx.go:23-39 | Which refusal wins: no draft, a draft without outputs, the first input that is spent, not reserved, of another draft or out of range, an output out of range, a transaction stored before. Otherwise each output with satoshis and a known script has a row of its owner, amount and type, unreserved and unspent (spendable at once if paid to a key hash), known inputs name the transaction, the draft is complete, and nothing else changes but balances; the invariant holds |
| Engine.Engine.RecordIncoming | engine/record_tx_strategy_external_incoming_tx.go:19-68 | Without a broadcast always an error and no change; a stored transaction never changes the ledger; a new one is recorded exactly if some output pays a known script, the amounts are in range and the broadcast succeeds, and the errors come in this order; what is recorded is stated row by row |
| Engine.Engine.HasOneKnownDestination | engine/model_transactions.go:333-347 | True exactly when some output pays a known script |
| Engine.Engine.HandleNotifyP2PError | engine/record_tx_strategy_outgoing_tx.go:147-177 | The recording is reverted exactly when the chain does not know the transaction and the revert succeeds; otherwise only the status becomes PROBLEMATIC; the invariant holds unless an unclean revert was made |
| Engine.Engine.ExecuteOutgoing | engine/record_tx_strategy_outgoing_tx.go:23-71 | Recording, notification and broadcast: after a failed notification the recording is undone exactly when the chain answers that it does not know the transaction; which status is written in each case |
| Engine.Engine.ReserveUtxos | engine/model_utxos.go:150-249 | The ledger changes by the reservation only. Unless UTXOs are named, the candidates are the free, unspent key-hash outputs of the xpub in row order; worth too little, nothing changes; else the shortest front that pays for the amount and a fee for each, or all of them, names the draft |
| Engine.Engine.UpdateDraft | engine/model_draft_transactions.go:785-818 | Exactly the reservations of a canceled or expired draft are lifted |
| Engine.Engine.ExpireDraft | engine/cron_job_definitions.go:45-52 | An open draft is expired exactly when its time is past, and then exactly the rows that name it are released; nothing else changes; the invariant holds |
| Engine.Engine.CleanupDrafts | engine/cron_job_definitions.go:14-56 | Of the first twenty open drafts by id exactly those past their time become expired, exactly the rows that name one of them are released, and no other column, draft or row changes |
| IdOrder.FirstPage | engine/cron_job_definitions.go:19-35 | The first page of a sorted query: the least ids in order, without repetition |
| Engine.Engine.DebitAll | engine/action_transaction.go:286-299 | The xpubs lose their values one by one in any order; an unknown one stops the loop after those before it |
| Engine.Engine.CheckRevert | engine/action_transaction.go:229-267 | The tests of a revert in their order, and the outputs of the transaction |
| Engine.Engine.Undo | engine/action_transaction.go:273-334 | The writes of a revert, in order, leave exactly the specified state, or nothing changed |
| Engine.Engine.RevertTransaction | engine/action_transaction.go:229-334 | Which refusal wins; else exactly the outputs of the transaction are marked deleted, the inputs of its draft are free, balances go back by the stored values, the draft is canceled and the transaction shows the markers only. The invariant holds if the revert was clean |
| Engine.Engine.NewXpub | engine/action_xpub.go:15-37 | A new xpub starts with balance and both counters zero; an existing one is refused and nothing changes |
| Engine.Engine.NewChangeDestination | engine/model_draft_transactions.go:697-726 | The next internal number is taken and its address stored as a destination; a number that does not fit is noticed after the counter has moved |
| Engine.Engine.NextPaymailNumber | engine/action_paymails.go:102-115 | The external number taken for a new paymail address; one that does not fit is noticed after the counter has moved |
| Engine.Engine.NewPaymailDestination | engine/paymail_service_provider.go:254-283 | A destination handed out for a paymail is stored for its owner; the invariant holds |
| Engine.Engine.SaveAncestor | engine/paymail_service_provider.go:410-425 | An ancestor from a BEEF is stored once and touches no balance |
| PendingRows.SavedIsRecorded | engine/db_model_transactions.go:141-148 | The rows collected input by input and output by output, once saved, are the recorded UTXO table |
| XpubTable.Xpubs.GetWithCache | engine/model_xpubs.go:82-127 | A read answers from the cache, else from the row, and fills the cache |
| XpubTable.Xpubs.IncrementBalance | engine/model_xpubs.go:199-217 | The row is written first; a negative result is reported without touching the cache |
| XpubTable.Xpubs.IncrementNextNum | engine/model_xpubs.go:246-289 | The number handed out is the one that was next; an overflow is reported after the row is written |
| XpubTable.Xpubs.AddToBalance | engine/db_model_transactions.go:89-97 | Load and increment: the row moves by the increment and the cache stays coherent |
| XpubTable.Xpubs.NextNumber | engine/model_draft_transactions.go:698-711 | Load and take the next number: the cache stays coherent |
| XpubTable.Xpubs.SaveBalance | engine/action_transaction.go:287-298 | Load, subtract modulo 2^64 and save as a whole: the cache stays coherent |
| XpubTable.CoherenceStep | engine/model_xpubs.go:199-217 | One operation keeps every cached xpub equal to its row exactly when what it writes is in range |
| XpubTable.CacheIsTransparent | engine/model_xpubs.go:343-360 | After any sequence of operations the cache is coherent and the rows are those of a store without a cache |
| XpubTable.InterleavedCoherence | engine/model_xpubs.go:199-289 | Over every interleaving of writers that write with copies loaded before, an xpub is coherent exactly when the last write to it was in range and its copy agreed with the row in all it did not write |
| XpubTable.CurrentUntilWritten | engine/model_xpubs.go:82-127 | A loaded copy is the row until another writer writes the xpub |
| XpubTable.LostUpdate | engine/action_transaction.go:287-298 | A write with an old copy does to the rows what it would do without a cache, except that saving a whole copy does so exactly when the copy, after the subtraction, is the row after it |
| XpubTable.LoadBeforeLock | engine/action_paymails.go:106-112 | A writer that loads before it waits for the lock puts an old balance back into the cache |
| UtxoTable.Utxos.GetSpendable | engine/model_utxos.go:63-114 | The first page of the spendable UTXOs in row order |
| UtxoTable.Utxos.ReservePage | engine/model_utxos.go:197-221 | One page is reserved UTXO by UTXO up to the threshold |
| UtxoTable.Utxos.ReservePages | engine/model_utxos.go:180-228 | Asking for page one again and again ends, and reserves the shortest non-empty sufficient prefix of the spendable list, or all of it, for every page size |
| UtxoTable.Utxos.ReserveSpendable | engine/model_utxos.go:180-249 | The error comes exactly when all that is free is too little, and then all rows are as before; otherwise exactly the rows of the shortest front that pays for the amount and a fee for each name the draft, without repetition, and no other column changes |
| UtxoTable.ShortestPrefixEnough | engine/model_utxos.go:230-237 | The prefix covers the amount exactly when the whole list does |
| UtxoTable.Utxos.ReserveNamed | engine/model_utxos.go:75-88 | The first name that is unknown, foreign or spent is the error; else the shortest front of the names that pays for the amount and a fee for each is taken, whatever draft holds it; too little frees all names, and a repeated name is an error that keeps them reserved |
| UtxoTable.Utxos.ReserveAllNamed | engine/model_draft_transactions.go:369-386 | All named UTXOs name the draft, whatever draft held them, or nothing changes and the first that is unknown, foreign or spent is the error |
| UtxoTable.Utxos.ReserveAll | engine/model_draft_transactions.go:367-386 | Exactly the free, unspent key-hash outputs of the xpub, in row order, name the draft; no other column changes |
| UtxoTable.Utxos.UnReserve | engine/model_utxos.go:117-147 | Exactly the reservations of the draft on the xpub's UTXOs are lifted |
| UtxoTable.Utxos.HeldBy | engine/model_utxos.go:343-351 | The UTXOs whose draft column names the draft |
| UtxoTable.HasRepeated | engine/model_utxos.go:239-246 | Finds a repetition exactly when there is one |
| ChangeSplit.SharesAddUp | engine/model_draft_transactions.go:680-682 | With the unchecked remainder on the last share, the shares add up to the change exactly when those before it do not exceed it |
| ChangeSplit.RandomUpToFive | engine/model_draft_transactions.go:655-671 | For up to five destinations and any numbers drawn, the shares add up to the change and none wraps |
| ChangeSplit.RandomExactly | engine/model_draft_transactions.go:655-682 | For any number of destinations, the random split is right for all draws exactly when the largest share, for all destinations but one, fits into the change |
| ChangeSplit.RandomSixFails | engine/model_draft_transactions.go:655-671 | Six destinations and the largest draws: the split exceeds its total by 2^64 |
| ChangeSplit.DefaultAddsUp | engine/model_draft_transactions.go:672-682 | The default split adds up to the change |
| ChangeSplit.GetChangeSatoshis | engine/model_draft_transactions.go:648-685 | The map from scripts to satoshis holds the last share assigned to each script, and the remainder on the last one |
| ChangeSplit.AssignShares | engine/model_draft_transactions.go:658-678 | The loop over the destinations: a repeated script overwrites its share, and the amount used counts every share |
| ChangeSplit.SplitDistinct | engine/model_draft_transactions.go:635-641 | With distinct scripts every destination gets its own share |
| ChangeSplit.SplitAddsUp | engine/model_draft_transactions.go:648-685 | Distinct scripts lose no satoshi, by the default strategy or at random over at most five |
| ChangeSplit.EqualScripts | engine/model_draft_transactions.go:672-682 | By the default strategy the total is right exactly when the change divides evenly or the last script is used once |
| DraftMath.ReservationCoversFee | engine/model_draft_transactions.go:481-518 | The fee after the reservation is at most the fee before it plus one fee for each input, up to the bytes of a longer input count |
| DraftMath.FeeOfInputs | engine/model_utxos.go:217-221 | Input fees rounded up one by one cover the rounded fee of the sum |
| DraftMath.FeeIsLeast | engine/model_draft_transactions.go:514-518 | The fee is the least number of satoshis that pays for the size at the rate of the fee unit |
| DraftMath.WithChangeTotal | engine/model_draft_transactions.go:586-592 | Adding change to flagged outputs raises their total by exactly part times number plus remainder |
| DraftMath.ProcessOutputsMatch | engine/model_transaction_config.go:169-326 | Resolving keeps amounts, and gives every output scripts that carry its amount |
| DraftMath.PaymentsAddUp | engine/utils/outputs.go:12-32 | A paymail provider with up to five scripts is paid what was asked for, whatever is drawn |
| DraftPayees.ResolveAnswers | engine/model_transaction_config.go:202-326 | The first output that cannot be resolved decides: without satoshis, without a provider's scripts, or of no known kind |
| DraftPayees.AllAsked | engine/model_transaction_config.go:202-326 | What is resolved has the scripts that were asked for, each with its amount; the satoshis of a paymail output are divided by the numbers drawn |
| DraftMath.FlattenTotal | engine/model_draft_transactions.go:521-567 | The raw outputs carry the total of the configuration when each output's scripts carry its amount |
| DraftPayees.CarryAnswers | engine/model_draft_transactions.go:521-567 | The first raw output that carries data with satoshis, or pays a key hash nothing, decides |
| DraftMath.FinalCheckAccepts | engine/model_draft_transactions.go:406-431 | The final check passes on what is conserved, and only then if the outputs do not exceed 64 bits |
| DraftPaths.ReservedIsEnough | engine/model_draft_transactions.go:335-345 | A reservation at its threshold with fewer than 253 inputs pays for outputs and fee; with more it lacks at most the fee of the longer count |
| DraftExamples.ChangeFeeWraps | engine/model_draft_transactions.go:613-615 | At one satoshi for twenty bytes, a payment of 1000 from an input of 1011 passes the test for enough satoshis; its change wraps, and the draft is not conserved but passes the final check |
| DraftPaths.NewChangeConserves | engine/model_draft_transactions.go:594-641 | New change outputs conserve exactly when the inputs pay for outputs and final fee |
| DraftPaths.ToFlaggedConserves | engine/model_draft_transactions.go:580-592 | Change on existing outputs conserves whenever the inputs pay for outputs and fee |
| DraftPaths.PlanConserves | engine/model_draft_transactions.go:260-300 | On every path without send-all, inputs that pay for outputs and final fee equal outputs and fee in the end, and the final check passes |
| DraftPaths.PlanConservesExactly | engine/model_draft_transactions.go:281-300 | For amounts below 2^64 a draft that passes the test for enough satoshis is conserved exactly when the added fee of new change outputs fits into the change |
| DraftPaths.FinalCheckBlind | engine/model_draft_transactions.go:423-429 | With new change outputs the final check refuses nothing but a fee above the inputs |
| DraftPaths.SendAllConserves | engine/model_draft_transactions.go:262-279 | Sending everything conserves exactly when the other outputs and the fee fit into the inputs |
| DraftExamples.SendAllWraps | engine/model_draft_transactions.go:262-279 | The same configuration sending everything besides a payment of 1005: the first output wraps and the final check passes |
| DraftExamples.SixOutputsWrap | engine/model_draft_transactions.go:655-682 | A payment of 1000 from an input of 3421 with six random change outputs: they are worth 2^64 too much, and the final check passes |
| DraftExamples.FlaggedChangeLost | engine/model_draft_transactions.go:580-592 | A payment of 1000 from an input of 5010 that takes the change of 4000 itself: the raw transaction pays 1000, and the final check passes |
| DraftPaths.PlanHex | engine/model_draft_transactions.go:570-592 | The raw outputs carry the configuration's total, except that change on existing outputs is missing from them |
| DraftPaths.SendAllHex | engine/model_draft_transactions.go:277-278 | A send-all output with one script carries its amount in the raw transaction |
| DraftPaths.AddressesDistinct | engine/model_draft_transactions.go:697-726 | Consecutive numbers give distinct change scripts |
| DraftPaths.InputsOfTotal | engine/model_draft_transactions.go:733-762 | The inputs of a draft are worth what was reserved |
| DraftPaths.ResolvedSendAll | engine/model_draft_transactions.go:171-189 | With a send-all target the first output is empty and alone flagged for change |
| DraftResult.PlainConserves | engine/model_draft_transactions.go:210-300 | A built draft whose inputs pay for outputs and final fee is conserved and never refused by the final check; without flagged outputs it is conserved only then |
| DraftResult.PlainHex | engine/model_draft_transactions.go:233-256 | The raw outputs of such a draft and the fee are worth the raw inputs plus the included UTXOs, which are not among the raw inputs |
| DraftResult.PlainNotRepeated | engine/model_draft_transactions.go:412-415 | What the engine picks itself never holds a UTXO twice |
| DraftResult.OwnAddressesSplit | engine/model_draft_transactions.go:617-623 | Change addresses made by the builder are always split without loss (random: up to five) |
| DraftPayees.MadeDraftPays | engine/model_draft_transactions.go:210-258 | Every draft that is built pays each output asked for, to its scripts and in order, and then each change destination its share, at consecutive addresses of the owner unless they were given; for send-all, the rest goes to the target |
| DraftResult.NotEnoughAfterReservation | engine/model_draft_transactions.go:281-283 | A built draft that reserved under 253 UTXOs lacks satoshis in the fee stage only if everything spendable was taken and does not pay for its own fees |
| DraftResult.SendAllResult | engine/model_draft_transactions.go:260-279 | A finished send-all draft is conserved exactly when other outputs and fee fit into the inputs, and then never refused by the final check |
| DraftResult.SendAllHexTotal | engine/model_draft_transactions.go:245-256 | To an address, the raw transaction leaves exactly the fee to the miner |
| DraftResult.DraftMadeKeepsInv | engine/model_draft_transactions.go:45-78 | Whatever happens while a draft is built that names and includes no UTXOs, the ledger invariant holds, and a finished draft holds exactly its inputs |
| DraftBuilder.DraftTransaction.GetTotalSatoshis | engine/model_draft_transactions.go:765-770 | The total of the outputs modulo 2^64 |
| DraftBuilder.DraftTransaction.EstimateSize | engine/model_draft_transactions.go:481-511 | The estimated bytes of overhead, inputs, outputs and both counts; 148 for each key-hash input |
| DraftBuilder.DraftTransaction.EstimateFee | engine/model_draft_transactions.go:514-518 | The least fee that is not below size times satoshis of the fee unit divided by its bytes |
| DraftBuilder.DraftTransaction.ProcessConfigOutputs | engine/model_draft_transactions.go:145-207 | The outputs are resolved in order, the send-all target first. Which output is refused and why; otherwise each one has its own script with its amount, or its paymail provider's scripts one by one, after the scripts it came with |
| DraftBuilder.DraftTransaction.AddOutputsToTx | engine/model_draft_transactions.go:521-567 | The raw outputs are the scripts of all outputs, one after the other; the first one that carries data with satoshis or pays a key hash nothing is the error |
| DraftBuilder.DraftTransaction.ValidateOutputsInputs | engine/model_draft_transactions.go:406-431 | A repeated input, else outputs above inputs, else a wrong fee, in this order; it passes exactly if no outpoint is repeated and outputs plus fee equal the inputs modulo 2^64 |
| DraftBuilder.DraftTransaction.AddInputs | engine/model_draft_transactions.go:733-762 | UTXOs are added to the inputs in order, with their total modulo 2^64 |
| DraftBuilder.DraftTransaction.AddIncludeUtxos | engine/model_draft_transactions.go:434-453 | Included UTXOs must exist and become inputs; they are not reserved |
| DraftBuilder.DraftTransaction.ReserveRequest | engine/model_draft_transactions.go:335-362 | Spendable or named UTXOs are reserved and join the included ones; what counts as reserved is the total of all inputs |
| DraftBuilder.DraftTransaction.PrepareSeparateUtxos | engine/model_draft_transactions.go:319-363 | A missing included UTXO, else nothing for an amount of dust without data, else a reservation for outputs and estimated fee |
| DraftBuilder.DraftTransaction.PrepareSendAllToUtxos | engine/model_draft_transactions.go:367-404 | Everything spendable, or named, becomes an input and its total goes to the first output |
| DraftBuilder.DraftTransaction.SetChangeDestinations | engine/model_draft_transactions.go:688-730 | n consecutive change addresses are made and stored, or as many as fit below the 32-bit limit and an error |
| DraftBuilder.DraftTransaction.ChangeToExisting | engine/model_draft_transactions.go:580-592 | The change goes in equal parts to the flagged outputs, the remainder to the first; amounts only, the scripts stay |
| DraftBuilder.DraftTransaction.ChangeToNew | engine/model_draft_transactions.go:593-642 | The number of destinations, the fee with them, the change left, and one output for each |
| DraftBuilder.DraftTransaction.SetChangeDestination | engine/model_draft_transactions.go:570-646 | Either path of the change, and the errors of the second |
| DraftBuilder.DraftTransaction.SetFeeAndChange | engine/model_draft_transactions.go:281-300 | Refused exactly if what is reserved is below outputs and fee; then fee and change as planned; a skipped reservation is noticed only if the amount is not zero |
| DraftBuilder.DraftTransaction.SubtractOthers | engine/model_draft_transactions.go:268-275 | What the fee and the unflagged outputs leave of an amount, modulo 2^64 |
| DraftBuilder.DraftTransaction.SetSendAllFee | engine/model_draft_transactions.go:261-279 | The send-all output gets what fee and other outputs leave, in its amount and its first script |
| DraftBuilder.DraftTransaction.BuildPlain | engine/model_draft_transactions.go:231-256 | Reservation, fee stage and checks of a draft without send-all, with the ledger after each failure |
| DraftBuilder.DraftTransaction.BuildSendAll | engine/model_draft_transactions.go:231-256 | The same for a send-all draft |
| DraftBuilder.DraftTransaction.CreateTransactionHex | engine/model_draft_transactions.go:210-258 | The whole builder: which error, which reservation, which fee. The raw transaction pays each output asked for, in order and to its own scripts, then each change destination its share, and nobody else; for send-all it pays the rest to the target |
| DraftBuilder.DraftTransaction.NewTransaction | engine/action_transaction.go:42-70 | A draft is saved, with its inputs, scripts, fee and time, only if it was built, and then pays as it was asked to; a failure leaves its reservations behind; if no UTXOs are named or included, the ledger invariant holds either way |
| Beef.LinkSourceTransaction | engine/beef_bump.go:124-131 | Every input that spends the given transaction is linked to it, the others stay as they were |
| BeefAncestry.GetTransactionsByIDs | engine/beef_tx_mock.go:25-33 | The stored ones among the ids, in the order asked for |
| BeefAncestry.GetMissingTxs | engine/beef_bump.go:133-146 | Exactly the ids that are not in the store, in order |
| BeefAncestry.FoundOrMissing | engine/beef_bump.go:80-83 | As many are found as were asked for exactly when none is missing |
| BeefAncestry.StopExact | engine/beef_bump.go:75-89 | An expansion is stopped exactly when some input is missing or cannot be read |
| BeefAncestry.SharedParent | engine/beef_bump.go:85-102 | A complete ancestry with a reused, unmined transaction that spends another |
| BeefRun.FinishOk | engine/beef_bump.go:42-51 | Breadth first, the worklist ends with an empty queue and all its invariants, or at a needed transaction whose expansion is stopped |
| BeefRun.StoppedIsIncomplete | engine/beef_bump.go:80-83 | A stopped expansion shows that no complete ancestry exists |
| BeefRun.EndedIsClosure | engine/beef_bump.go:42-51 | When the queue is empty, the list is the least closed set, the subject first and nothing twice |
| BeefRun.CopyIsReused | engine/beef_bump.go:93-98 | An object that is not the first with its id is the subject again, or an input of two expanded transactions |
| BeefRun.ReusedIsCopied | engine/beef_bump.go:93-98 | The input of two expanded transactions, or the subject as an input, has an object that is not the first |
| BeefOrder.FailureIsNearest | engine/beef_bump.go:42-83 | Everything that is expanded at a smaller distance from the subject than the failing transaction has all its inputs; the error lists exactly the inputs that are not stored, or else the first that cannot be read |
| Beef.BeefPreparationContext.Register | engine/beef_bump.go:93-101 | The first transaction with its id is listed; each is enqueued unless mined |
| Beef.BeefPreparationContext.AddInput | engine/beef_bump.go:85-102 | One input is read, listed if new, linked, and enqueued unless mined |
| Beef.BeefPreparationContext.ProcessInputTransactions | engine/beef_bump.go:72-105 | All inputs are collected and linked, or the error is all missing ones, or else the first unreadable one |
| Beef.BeefPreparationContext.ProcessTransaction | engine/beef_bump.go:54-70 | An id is expanded once; what is read, listed, queued and linked is as in the worklist on numbers |
| Beef.BeefPreparationContext.ProcessQueue | engine/beef_bump.go:42-49 | On every finite store, cyclic ones included, the loop ends as the worklist on numbers does |
| Beef.BeefPreparationContext.ObjectsAreGraph | engine/beef_bump.go:124-131 | The objects that were read are exactly those reached from the subject by links, each as it is stored |
| Beef.BeefPreparationContext.AllComplete | engine/beef_bump.go:93-102 | All objects without a Merkle path have all their links exactly when no unmined transaction with inputs is reused |
| Beef.PrepareBEEFFactors | engine/beef_bump.go:21-52 | Succeeds exactly when the whole ancestry is stored and readable; then the list is the least closed set and its members have their inputs linked, and the same holds for all that is reached by links exactly when nothing unmined with inputs is reused; a failure is that of a transaction nearest to the subject that lacks inputs, and names them |
| TxStatus.RunKeepsPaths | engine/action_transaction.go:338-370 | Under every interleaving of all writers, stale copies included, a stored MINED transaction has a Merkle path |
| TxStatus.WrittenHasPath | engine/tx_sync_task.go:122-138 | Every writer that saves MINED saves a path with it |
| TxStatus.WritesMark | engine/record_tx_strategy_outgoing_tx.go:53-177 | Which status a broadcast, a failed broadcast, a failed notification and a revert leave; path, hash and height stay |
| TxStatus.SyncLowersRank | engine/tx_sync_task.go:59-168 | Every save of the sync job lowers the rank CREATED, BROADCASTED, final |
| TxStatus.OthersRaise | engine/record_tx_strategy_internal_incoming_tx.go:19-32 | Of the other writers exactly a broadcast of a transaction with a final status raises the rank |
| TxStatus.SyncSavesBounded | engine/tx_sync_task.go:59-140 | Over any history of saves applied one at a time, the sync job saves a record at most rank times, plus once for every status taken back |
| TxStatus.NoRelapse | engine/tx_sync_task.go:59-140 | Left to the sync job, a record is saved at most twice |
| TxStatus.SyncedAllLowers | engine/tx_sync_task.go:76-141 | One run of the job saves each selected record at most once, with a lower rank, and touches no other |
| TxStatus.Transactions.Select | engine/tx_sync_task.go:52-66 | Exactly the CREATED records older than ten minutes, the BROADCASTED ones older than the delay, and those without a status |
| TxStatus.Transactions.SyncOne | engine/tx_sync_task.go:76-141 | By answer: not known to ARC, PROBLEMATIC after a day, else a CREATED one becomes BROADCASTED or PROBLEMATIC as its broadcast goes; a failed query, PROBLEMATIC after a day; mined, with path, hash and height if both are usable; PROBLEMATIC for the four problematic answers; else unchanged |
| TxStatus.Transactions.ProcessSyncTransactions | engine/tx_sync_task.go:40-142 | What the answer for it does to each selected record, up to the first that stops the job; the records after it and all others are unchanged; every record changed has a lower rank |
| TxStatus.Transactions.HandleTxCallback | engine/action_transaction.go:338-370 | Without a readable path, for an unknown transaction or with a negative height nothing changes; otherwise path, hash and height are stored, and the status is MINED, PROBLEMATIC or as before, by ARC's answer |

## Assumptions

* A save does not fail half-way, the row order of the datastore is fixed, and an empty page of a query is
  an empty answer.
* Identifiers are hashes: a transaction's id determines it, no id is one of the marker words "deleted" and
  "reverted", and the id of a new draft is not in use.
* A recorded transaction has distinct inputs. That these are the inputs of its draft is assumed only by the
  members that say so.
* Derivation of addresses is injective (BIP-32, section "Child key derivation (CKD) functions").
* Fees are exact rationals rounded up, `ceil(size * satoshis / bytes)`.
* ARC, the paymail providers and the random numbers are arguments of the methods that ask for them.

## Left out

- DraftResult.DraftMadeKeepsInv: for drafts that name or include UTXOs the ledger invariant is not claimed, because such a draft can take what another one holds (`LedgerExamples.NamingTakesFromOpenDraft`) or breaks the invariant (`LedgerUndo.StoreDraftExactly`).
- UtxoTable.Utxos.ReservePages: the sums of reserved satoshis and of fees do not wrap; satoshis in existence stay far below 2^64.
- Engine.Engine.RecordOutgoing: metadata and display totals are not modelled; after a revert that was not clean the method is not described, because a balance may then not cover a transaction and the error of the hook is not modelled.
- LedgerRuns.RunKeepsInv: its first part, for runs with such a revert, is likewise about recordings that the balances cover.
- Engine.Engine.NewPaymailDestination: the script is given; its derivation from the number of the paymail address is not modelled.
- TxStatus.SyncSavesBounded: not claimed for saves of old copies, which can put an old status back any number of times.
- The destination looked up for every reserved UTXO (engine/model_draft_transactions.go:456-477), which fails only on a broken database.
- Write locks and their time limits, cache expiry, and database errors.
- The order of a BEEF answer from a real datastore: the store answers in the order of the ids, as engine/beef_tx_mock.go does.
- Conversion of Merkle paths (engine/model_bump.go): a path is present or not, readable or not.
- Parsing of scripts, paymail handles and OP_RETURN data: an output comes with its script, and a paymail output with its provider's answer.
- Rounding in float64 arithmetic.
- Contacts, access keys, webhooks, paymail records, HTTP handlers, metrics: guards of one branch each, which would only add easy members.
