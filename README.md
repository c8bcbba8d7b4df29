# NSC escrow payments

A model of the payment core of the NSC (Naver Stable Coin) backend.

The backend keeps three tables:
- `user_wallets`: each wallet has an available `balance` and a `frozen_amount`.
- `payment_orders`: each order has an amount and a status. The status is READY, COMPLETED or CANCELED.
- `transaction_ledger`: an append-only history of BUY, PAY and REFUND entries.

Four handlers change the tables. Each runs as one transaction:
- **buy** charges a wallet, creating the wallet first if needed, and records BUY.
- **prepare** freezes part of the balance against a new READY order.
- **confirm** settles a READY order. The frozen amount leaves the wallet for good, the order becomes COMPLETED, and PAY is recorded.
- **cancel** releases a READY order. The frozen amount returns to the balance, the order becomes CANCELED, and REFUND is recorded.

Three read-only views list the newest rows:
- a wallet with its ten newest entries; this view also creates a missing wallet;
- the fifty newest ledger entries;
- the fifty newest orders.

The model is split into modules:
- `Models` (`models.dfy`): the record shapes. Amounts are whole numbers of cents, the two decimal places the Numeric(18, 2) columns declare. The program itself accepts amounts of any scale; see "## Left out".
- `Ledger` (`ledger.dfy`): folds over the ledger. These are per-wallet totals by type, the entries that name an order, and the transaction ids in use.
- `Escrow` (`escrow.dfy`): each handler as a pure step function. A step maps a store `State` to a result and a new state. This module also defines the consistency invariant `Inv`.
- `Preservation` (`preservation.dfy`): every step keeps `Inv`.
- `Queries` (`queries.dfy`): the newest-first views.
- `Service` (`service.dfy`): the handlers as methods of a `PaymentService` class. The class holds the tables as fields and updates them in place. Each method is proved to produce exactly the state and the answer of its step function, and to keep `Inv`.
- `Properties` (`properties.dfy`): properties of whole request histories, worked scenarios, and the counterexample listed under Findings.

`Inv` says the following:
- Every row sits under its primary key. Transaction ids are unique.
- Every order and every entry belongs to an existing wallet.
- Order amounts and entry amounts are positive.
- No balance is negative.
- A wallet's frozen amount is the sum of its READY orders.
- A wallet's balance plus its frozen amount equals what it bought minus what it paid.
- A READY order has no entry. A COMPLETED order has exactly one PAY. A CANCELED order has exactly one REFUND.

Where the handlers and their documentation differ, the model follows the handlers:
- A wallet is created lazily by buy and by the wallet view, with both amounts 0.00.
- prepare writes no ledger entry.

There is one deliberate exception: prepare. As written, prepare accepts an amount of zero or less (see "## Findings"). `Escrow.PrepareAsWritten` models it exactly as written. `Escrow.PrepareStep` is the corrected step, which refuses such amounts as buy does. The service method and the history lemmas (`Properties.Apply`, `RunPreservesInv`, `ReachableStoresBalance`) use the corrected step. So they describe the program with that check added, not the program as written.

## Model

| member | source | states |
|---|---|---|
| Escrow.OpenWallet | backend/main.py:67-73 | The wallet of the user exists afterwards. An existing wallet keeps its amounts. A new one is 0.00/0.00. No other wallet, order or entry changes. |
| Escrow.BuyStep | backend/main.py:55-83 | Fails exactly when the amount is not positive (InvalidAmount) or the new BUY id is taken. A failure changes nothing. On success the balance rises by exactly the amount and is the answer. Frozen is unchanged. One BUY entry with no order is appended. Nothing else changes. |
| Escrow.PrepareAsWritten | backend/main.py:85-121 | prepare as written, with no positivity check. Fails exactly on a missing wallet, a balance below the amount or a taken order id, and a failure changes nothing. Otherwise: the answer is the new order and the amount; the wallet map is the old one with only the wallet of the user changed, its balance minus the amount and its frozen amount plus the amount; exactly one READY order is added under the new id and logged; no ledger entry. |
| Escrow.PrepareAsWrittenEvolves | backend/main.py:85-121 | prepare as written deletes no wallet or order, changes no existing order and only grows the order log; the ledger stays as it was. |
| Escrow.PrepareStep | backend/main.py:85-121 | Equals the handler for positive amounts. Fails exactly on a non-positive amount, a missing wallet (WalletNotFound), a balance below the amount (InsufficientBalance) or a taken order id, and a failure changes nothing. On success: balance minus the amount, which stays >= 0; frozen plus the amount; one new READY order under a fresh id with the given user, merchant and amount. No ledger entry. Nothing else changes. |
| Escrow.ConfirmStep | backend/main.py:123-158 | A missing or non-READY order gives InvalidOrder with nothing changed. Succeeds exactly for a READY order whose wallet exists and whose PAY id is new. Then frozen drops by the order amount, the status becomes COMPLETED, and one PAY entry naming the order is appended. Nothing else changes. |
| Escrow.CancelStep | backend/main.py:160-196 | A missing or non-READY order gives InvalidOrder with nothing changed. On success frozen drops and balance rises by the order amount, the status becomes CANCELED, and one REFUND entry naming the order is appended. Nothing else changes. |
| Escrow.ReadySumRelease | backend/main.py:144-147 | Moving one READY order to a terminal status lowers its owner's sum of READY amounts by exactly the order amount. Every other user's sum is unchanged. |
| Escrow.ReadySumAppend | backend/main.py:107-118 | A new order adds exactly its held amount to its owner's READY sum. |
| Escrow.ReadySumFrame | backend/main.py:111-118 | Changing an order that is not listed leaves every READY sum unchanged. |
| Escrow.ReadySumAbsent | backend/models.py:24-25 | A user who owns no order has a READY sum of 0. |
| Escrow.ReadySumNonNegative | backend/models.py:27 | With positive order amounts, a READY sum is never negative. |
| Escrow.InvNonNegative | backend/models.py:13-14 | In a consistent store no balance and no frozen amount is negative. |
| Escrow.EmptyInv | backend/models.py:5-43 | The empty schema is consistent. |
| Ledger.TotalAppend | backend/models.py:31-43 | Appending one entry adds exactly its share to each wallet's per-type total. |
| Ledger.MentionsAppend | backend/models.py:31-43 | Appending one entry adds its type to the mentions of its related order only. |
| Ledger.TotalAbsent | backend/models.py:39-41 | A wallet with no entries has every total zero. |
| Ledger.MentionsAbsent | backend/models.py:42 | An order no entry references has no mentions. |
| Ledger.AppendFreshTx | backend/models.py:38 | Appending an entry under an unused tx_id keeps tx_id a primary key and adds exactly that id. |
| Preservation.OpenWalletPreservesInv | backend/main.py:209-216 | Creating a missing wallet keeps the store consistent. |
| Preservation.CreditConserved | backend/main.py:76-80 | Raising the balance together with a BUY entry keeps balance + frozen = BUY total − PAY total. |
| Preservation.CreditRecorded | backend/main.py:79-80 | A BUY entry changes no order's recorded entries. |
| Preservation.CreditOwned | backend/main.py:79-80 | A positive BUY entry is well formed and belongs to an existing wallet. |
| Preservation.CreditPreservesInv | backend/main.py:76-82 | The writes of a successful buy keep the store consistent. |
| Preservation.BuyPreservesInv | backend/main.py:55-83 | Every buy keeps the store consistent. |
| Preservation.FreezeFrozenHeld | backend/main.py:106-118 | After a freeze each wallet's frozen amount is still the sum of its READY orders. |
| Preservation.FreezeLogMatches | backend/main.py:110-118 | The new order is logged exactly once. |
| Preservation.FreezeRecorded | backend/main.py:110-118 | A new READY order has no ledger entries. |
| Preservation.FreezeOwned | backend/main.py:111-117 | The new order belongs to an existing wallet and has a positive amount. |
| Preservation.FreezeBalances | backend/main.py:101-107 | Moving a covered amount keeps balance + frozen and leaves the balance >= 0. |
| Preservation.FreezeKeyed | backend/models.py:24 | The new order sits under its own id. |
| Preservation.FreezePreservesInv | backend/main.py:104-118 | The writes of a successful prepare keep the store consistent. |
| Preservation.PreparePreservesInv | backend/main.py:85-121 | Every prepare, with the positivity check, keeps the store consistent. |
| Preservation.PrepareCommits | backend/main.py:104-121 | A prepare that passes every check answers the new order and its amount and commits exactly the freeze writes. |
| Preservation.BuyCommits | backend/main.py:66-83 | A buy of a positive amount under an unused tx_id answers the new balance and commits exactly the credit writes, creating the wallet first if needed. |
| Preservation.ConfirmCommits | backend/main.py:139-158 | A confirm of a READY order with an existing wallet and an unused tx_id answers COMPLETED and commits exactly the settle writes. |
| Preservation.CancelCommits | backend/main.py:176-196 | A cancel of a READY order with an existing wallet and an unused tx_id answers CANCELED and commits exactly the release writes. |
| Preservation.SettleBalances | backend/main.py:143-156 | After a settle, frozen is still the READY sum, and balance + frozen is still BUY total − PAY total. |
| Preservation.SettleRecorded | backend/main.py:146-156 | The settled order has exactly one PAY. No other order's entries change. |
| Preservation.SettleOwned | backend/main.py:150-156 | The PAY entry is well formed and names an existing wallet and order. |
| Preservation.ConfirmPreservesInv | backend/main.py:123-158 | Every confirm keeps the store consistent. In a consistent store the order's wallet always exists. |
| Preservation.ReleaseBalances | backend/main.py:180-194 | After a release, frozen is still the READY sum, and balance + frozen is still BUY total − PAY total. |
| Preservation.ReleaseRecorded | backend/main.py:184-194 | The released order has exactly one REFUND. No other order's entries change. |
| Preservation.ReleaseOwned | backend/main.py:188-194 | The REFUND entry is well formed and names an existing wallet and order. |
| Preservation.CancelPreservesInv | backend/main.py:160-196 | Every cancel keeps the store consistent. In a consistent store the order's wallet always exists. |
| Queries.NewestFirst | backend/main.py:219 | Returns min(n, length) elements, newest first: element i is the i-th from the end. |
| Queries.EntriesOf | backend/main.py:219 | Holds an entry exactly when the ledger holds it and it belongs to the given wallet. It is never longer than the ledger. Order and multiplicity are given by Queries.EntriesOfPositions. |
| Queries.PositionsOf | backend/main.py:219 | The positions of the wallet's entries: each points at an entry of that wallet, they strictly increase, and every such position is included. |
| Queries.EntriesOfPositions | backend/main.py:219 | A wallet's history is the ledger read at the wallet's positions, so it is in ledger order with each of the wallet's rows exactly once. |
| Queries.EntriesOfAppend | backend/main.py:219 | A new entry joins a wallet's history exactly when it belongs to that wallet. |
| Queries.RecentTransactions | backend/main.py:219 | At most 10 entries, all of the wallet and all in the ledger. The wallet's newest entries, newest first. |
| Queries.RecentLedger | backend/main.py:232 | At most 50 entries, the newest first. |
| Queries.OrderHistory | backend/models.py:29 | The orders in creation order. |
| Queries.RecentOrders | backend/main.py:238 | At most 50 orders, the most recently created first. |
| Service.PaymentService.constructor | backend/models.py:5-43 | Starts with empty, consistent tables. |
| Service.PaymentService.BuyNsc | backend/main.py:55-83 | Updates the tables and answers exactly as BuyStep, and keeps them consistent. |
| Service.PaymentService.CreditInPlace | backend/main.py:67-80 | The in-place writes of buy leave the tables exactly as Credit after OpenWallet describes. |
| Service.PaymentService.PreparePayment | backend/main.py:85-121 | Updates the tables and answers exactly as PrepareStep, and keeps them consistent. |
| Service.PaymentService.FreezeInPlace | backend/main.py:104-118 | The in-place writes of prepare leave the tables exactly as Freeze describes. |
| Service.PaymentService.ConfirmPayment | backend/main.py:123-158 | Updates the tables and answers exactly as ConfirmStep, and keeps them consistent. |
| Service.PaymentService.SettleInPlace | backend/main.py:139-156 | The in-place writes of confirm leave the tables exactly as Settle describes. |
| Service.PaymentService.CancelPayment | backend/main.py:160-196 | Updates the tables and answers exactly as CancelStep, and keeps them consistent. |
| Service.PaymentService.ReleaseInPlace | backend/main.py:176-194 | The in-place writes of cancel leave the tables exactly as Release describes. |
| Service.PaymentService.GetWallet | backend/main.py:202-227 | Creates a missing wallet as OpenWallet does and keeps the tables consistent. Answers the balance, frozen amount and ten newest entries. |
| Service.PaymentService.GetAllLedger | backend/main.py:229-233 | At most 50 ledger entries, newest first. |
| Service.PaymentService.GetAllOrders | backend/main.py:235-239 | At most 50 orders, most recently created first. |
| Properties.ApplyPreservesInv | backend/main.py:55-227 | Any single request, with the corrected prepare, keeps the store consistent. |
| Properties.EvolvesTransitive | backend/models.py:31-34 | Growth of the store composes over two steps. |
| Properties.RunEvolves | backend/models.py:17-43 | Over any history, with the corrected prepare, wallets and orders are never deleted and orders only leave READY. The order log and the ledger only grow at their end, so existing entries never change. |
| Properties.RunPreservesInv | backend/main.py:55-227 | Over any history from a consistent store, with the corrected prepare, the store stays consistent. |
| Properties.ReachableStoresBalance | backend/main.py:55-196 | In every store reachable from the empty schema by the handlers with the corrected prepare, no amount is negative, and frozen equals the READY order sum. Balance + frozen equals BUY total − PAY total. |
| Properties.TerminalIsFinal | backend/models.py:20 | An order that has left READY never changes again, over any history of the handlers with the corrected prepare. |
| Properties.SettledOrderRefusesRetry | backend/main.py:136-137 | After a confirm, a second confirm or a cancel of the same order fails with InvalidOrder and changes nothing. |
| Properties.CanceledOrderRefusesRetry | backend/main.py:173-174 | After a cancel, a confirm or a second cancel of the same order fails with InvalidOrder and changes nothing. |
| Properties.NonPositiveBuyRefused | backend/main.py:63-64 | A buy of zero or less fails with InvalidAmount and changes nothing. |
| Properties.FreezeWithoutWalletRefused | backend/main.py:95-99 | A prepare of a positive amount for a user without a wallet fails with WalletNotFound and creates no order. |
| Properties.PaymentFlowScenario | backend/main.py:55-196 | Buy 100.00 and prepare 80.00 leave 20.00 available and 80.00 frozen. Confirm then leaves 20.00/0.00 and one PAY of 80.00. Cancel instead leaves 100.00/0.00 and one REFUND. A retry after either fails. |
| Properties.OneEmptyWalletInv | backend/main.py:214 | A store holding one fresh wallet is consistent. |
| Properties.NonPositivePrepareAsWrittenBreaksInv | backend/main.py:98-118 | As written, prepare from any consistent store, with an existing wallet, a new order id and an amount of zero or less, succeeds and leaves an inconsistent store. |
| Properties.NegativePrepareMints | backend/main.py:101-107 | As written, prepare of −5.00 on a consistent empty wallet succeeds and breaks consistency. A confirm after it leaves 5.00 in a wallet that never bought anything. The checked prepare refuses it. |

## Left out

- Row locking, async sessions and commit/rollback mechanics: each handler is one atomic step, and requests run one after another.
- Concurrency, including the lost update in buy, which reads and writes the wallet without a lock.
- FastAPI routing, HTTP status codes and the Pydantic request and response schemas. Errors are the `Error` datatype instead.
- The created_at and updated_at timestamps. Append order of the ledger and the order log stands for creation order. This order is stricter than the program's: the timestamps have one-second resolution, so the program leaves unspecified the order of rows created within the same second.
- uuid generation: the new order id and each new tx_id are parameters.
- A taken primary key: the database would reject the new row at commit and roll the whole transaction back. The model checks the key before the writes, which has the same effect: DuplicateKey with nothing changed.
- A confirm or cancel whose order has no wallet crashes the handler, and the transaction rolls back. The model answers WalletNotFound with nothing changed. `Preservation.ConfirmPreservesInv` and `Preservation.CancelPreservesInv` prove that this case cannot arise in a consistent store.
- GetWallet commits the new wallet separately before it reads. The model treats the whole call as one step.
- Escrow.BuyStep: amounts are taken to be whole cents. The program accepts a Decimal of any scale, and the frontend sends a float. On the SQLite engine (backend/database.py:5) a Numeric column is stored as a float and read back rounded to two places. Two buys of 0.005 for a new wallet read back as a balance of 0.01 but two BUY rows of 0.01 each. So conservation (`Conserved`, `Properties.ReachableStoresBalance`) is proved only for requests in whole cents.
- Escrow.PrepareStep: amounts are taken to be whole cents, for the same reason as buy. The float storage and rounding on read are not modelled.
- Float precision of large amounts: cents are unbounded integers. On SQLite nothing overflows the column, but a large amount stored as a float loses its cents. That is not modelled.
- Service.PaymentService.PreparePayment: the service runs the corrected prepare (`Escrow.PrepareStep`), which refuses an amount of zero or less. The handler as written accepts such amounts; `Escrow.PrepareAsWritten` models that behaviour, and no service method does.
- `backend/database.py` (connection and session setup) and `backend/init_db.py` (dropping and creating the schema) are not part of this model. The empty store stands for a fresh schema.
- The frontend (`frontend/src/...`) is not part of this model.

## Findings

| source | as written | input that shows it | evidently intended | confidence | as-written member | corrected member |
|---|---|---|---|---|---|---|
| backend/main.py:101 | prepare checks only that the balance covers the amount, so a negative amount passes. It raises the balance and drives the frozen amount below zero. | A wallet with 0.00/0.00. Prepare −5.00, then confirm that order. The wallet ends with 5.00 available although it never bought anything. | Reject a non-positive amount, as buy does (backend/main.py:63-64). | not executed | Escrow.PrepareAsWritten, Properties.NonPositivePrepareAsWrittenBreaksInv, Properties.NegativePrepareMints | Escrow.PrepareStep, Preservation.PreparePreservesInv |
