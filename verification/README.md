# The order saga, its outbox and its stock, wallet and reservation rules

An order is placed, its stock deducted, its points paid and itself marked PAID by four services
that talk through outbox rows, a poller and three topics. No handler checks whether it has run
before: all that keeps an order from being deducted or charged twice is the unique key of the
outbox, inside the transaction of each stage. This project models those services and proves what
that design gives, and what it does not.

`dafny verify dfyconfig.toml` checks the whole project (Dafny 4.11).

## How it is laid out

| file | what it holds |
|---|---|
| `Domain.dfy` | the tables, and each database transaction as a function on them; deduction and restore as inverses |
| `Effects.dfy` | what those transactions come to for a caller, in quantities, prices and balances, apart from the functions that compute them |
| `Saga.dfy` | the state machine: tables, topics, rows in a poller's hands, recovery writes still owed; 15 kinds of steps, each naming its own failures; runs |
| `SagaInvariant.dfy` | the invariant of every reachable state |
| `SagaTheorems.dfy` | effectively-once stages, the causal chain, final statuses, sound compensation, the row status machine, bounded attempts |
| `Duplicates.dfy` | what a second delivery of `order.created` does, exactly; what a slow mark hides |
| `Reachable.dfy` | runs from the beginning: to a deduction, to a circle of re-drives, to any number of restores |
| `Accounting.dfy`, `Money.dfy` | stock and money conservation over every run; what a user is left with |
| `Completion.dfy` | the three ends of an order; when the books balance, and by how much they do not |
| `Drain.dfy` | a fault-free system with exactly-once delivery works itself empty |
| `Served.dfy` | which orders end PAID: all that stock and wallets cover, and none beyond |
| `Transactions.dfy` | the saga's transactions statement by statement, with row locks, versions and keys that block: each commit is one step of the saga |
| `Interleaved.dfy` | the whole system with its transactions statement by statement: each of its runs is a run of the saga |
| `StockLocking.dfy` | row locks and absolute writes in place, with undo, are serial; units sold exactly |
| `WalletVersions.dfy` | versioned balances written in place are serial; version order |
| `Reservation.dfy`, `Overshoot.dfy` | the reservation window, alone and overlapping |
| `Json.dfy`, `Payload.dfy`, `ArrayPayloads.dfy` | JSON text, the text of an order, the three decoders of a stored payload, and exactly when they agree |
| `Store.dfy` | the stock and wallet models and the repositories, as objects updated in place |
| `Handlers.dfy` | the services and facades as methods on those objects, tied to the saga's steps |
| `Poller.dfy` | the pass over INIT rows as a method with its topics; the pass is a run of the saga |
| `Compensation.dfy` | the pass over FAIL rows as a method; what each row comes to, from the faults alone; the pass is a run of the saga |

The saga takes each transaction as one step. `Transactions` shows that any interleaving of the
statements of deductions, restores, payments, charges and success marks commits what those steps
commit, and `Interleaved` that every run of the whole system at that level is a run of the saga.
`StockLocking` and `WalletVersions` look at the two disciplines alone, with writes made in
place. `Handlers`, `Poller` and `Compensation` connect the code's methods to runs of the saga.
Failures are part of a step: a message may be delivered any number of times, late, out of order or
never; a publication may reach the topic and still fail; a mark, a recovery write or a restore may
fail; a poller may crash between any two commits; any number of pollers run at once.

Money is in hundredths (the column is `Decimal(65, 2)`), stock and points are integers. A row's
`born` field, the `log` and the `book` are history: no step reads them.

Where a comment disagrees with its code the code is followed: the comment at
`src/domain/services/outbox-polling.service.ts:113` says a payload is parsed once, the lines below
it parse it twice when it is a string literal.

### What the code does not give

Each of these is stated as a lemma rather than assumed away.

- A restore and its mark are two commits, so a lost mark restores again: in every system that can
  serve an order there are runs that restore it any number of times
  (`Reachable.RestoredAnyNumberOfTimes`). The exact account is `Completion.CompleteBooks` over
  runs; over the handling of one row, `Compensation.RestoredExactly` says from the faults alone
  when the stock is right.
- A failed restore is swallowed and its row marked (`Completion.FailedRestoreIsForgotten`).
- A second `order.created` delivery leaves no trace exactly if the event waits to be published
  anyway or the stock no longer covers the order (`Duplicates.SecondDelivery`); otherwise it can
  send its event round for ever (`Duplicates.RoundsNeverEnd`), in every system that can serve an
  order and without any fault if the stock covers the order twice (`Reachable.CircleIsReached`). A late
  mark can hide a re-drive (`Duplicates.LateMarkHidesReDrive`). Completion is therefore proved for exactly-once,
  fault-free delivery only; safety is proved for all runs.
- An order whose payment failed stays PENDING_PAYMENT (`Completion.CompleteOrdersEndOneWay`).
- Overlapping admissions overshoot the reservation window; the bound is proved and reached
  (`Overshoot.OvershootIsBounded`, `Overshoot.OvershootIsReached`).

The unique index on order items gives more than it seems to: deducting keeps the last quantity of
a product and restoring looks up the first, so the two undo each other exactly when those agree
(`Domain.RestoreUndoesDeduction`), and the index makes them agree for every order that is placed
(`Domain.PlacedOrdersCanBeRestored`).

## Model

| member | source | states |
|---|---|---|
| `SagaTheorems.EffectivelyOnce` | src/application/facades/product.facade.ts:92-103 | over every run each order is deducted, charged and set PAID at most once, and exactly if the row of that stage was born INIT |
| `SagaTheorems.CausalChain` | src/application/facades/order.facade.ts:124-152 | PAID rests on all four rows with one deduction, one charge and no restore; FAILED on a deduction row born FAIL and nothing after it |
| `SagaTheorems.TerminalStatusIsFinal` | src/domain/services/outbox-polling.service.ts:216-221 | an order that is PAID or FAILED stays so through any further run, although no handler tests the status |
| `SagaTheorems.CompensationIsSound` | src/domain/services/outbox-polling.service.ts:192-215 | once stock has been restored for an order, its deduction had committed, its payment row was born FAIL, and in every further run it is never charged or PAID |
| `SagaTheorems.RowsMove` | src/domain/services/outbox-polling.service.ts:142-161 | no step takes a row from INIT to FAIL, only `order.created` goes back to INIT, and rows keep their payload and the status they were born with |
| `SagaTheorems.OnlyCommittedStagesArePublished` | src/domain/services/outbox-polling.service.ts:118-140 | whatever is on a topic is the payload of a row born INIT: a failed stage is never published |
| `SagaTheorems.AttemptsAreBounded` | src/domain/services/outbox-polling.service.ts:56-68 | in any run a row is sent at most four times and restored at most four times for each time a poller has read it |
| `Duplicates.SecondDelivery` | src/application/facades/product.facade.ts:104-111 | once the deduction has its row, a second delivery with its recovery leaves every table as it was exactly if `order.created` is INIT already or the stock no longer covers the order; otherwise it sets that row INIT and nothing else |
| `Duplicates.DuplicateDeliveryGoesRound` | src/application/facades/product.facade.ts:74-90 | in the other case, if no row is INIT, a run that begins with that delivery, faulty or not, and its re-drive leads back to the same tables, topics, tasks and recoveries, with the message sent once more |
| `Duplicates.RoundsNeverEnd` | src/application/facades/product.facade.ts:104-111 | and for every n there is a run of n such rounds, the message sent n times more |
| `Duplicates.LateMarkHidesReDrive` | src/domain/services/outbox-polling.service.ts:142-154 | a publication marked after a re-drive leaves exactly the state the mark alone would have left |
| `Reachable.RefusedAfterwards` | src/domain/services/product.service.ts:79-96 | after its deduction a second delivery of an order is refused for good exactly if the initial stock did not cover the order twice |
| `Reachable.CircleIsReached` | src/application/facades/product.facade.ts:104-111 | from every initial state, for every order with an item, no product twice and a stock that covers each quantity, a run reaches the state after the deduction and there a round that begins with a second delivery: one without any fault if the stock covers the order twice, one with a fault otherwise |
| `Reachable.RestoredAnyNumberOfTimes` | src/domain/services/outbox-polling.service.ts:192-235 | from every such state and for every n, a run with lost marks ends with n restores of the order, and each stock at its initial value less the units deducted once plus n times the units restored |
| `Reachable.RestoredTwice` | src/domain/services/outbox-polling.service.ts:62-65 | three units and an order of two: a run from the beginning ends with two restores and five units |
| `SagaInvariant.StepInv` | src/infrastructure/database/schema.prisma:140 | every step keeps the invariant tying rows, messages, tasks, owed recoveries and effects together |
| `SagaInvariant.StepBookInv` | src/domain/services/order.service.ts:27-60 | every step keeps the placed orders, their items and their `order.created` rows in agreement |
| `Accounting.StockConservation` | src/domain/services/product.service.ts:69-97 | over every run stock never goes below zero, and with the units deducted minus those restored, every restore counted, it makes up the initial stock |
| `Money.MoneyConservation` | src/domain/services/wallet.service.ts:40-73 | over every run a balance has moved by the point rows written and its version by their number, never below zero, and the USE rows sum to price times quantity of the items of the orders whose payment row was born INIT |
| `Money.ChargeRows` | src/domain/services/point.service.ts:20-54 | over every run the CHARGE rows written for a user sum to the amounts of the charges made while the wallet existed |
| `Money.WhatIsLeft` | src/domain/services/wallet.service.ts:40-73 | after any run a balance is the initial one plus what was charged less price times quantity of the items of the orders paid |
| `Completion.CompleteOrdersEndOneWay` | src/domain/services/outbox-polling.service.ts:164-237 | a complete order is in exactly one of three ends: PAID, out of stock, or unpaid and still pending |
| `Completion.CompleteBooks` | src/domain/services/outbox-polling.service.ts:192-215 | in every run, once all orders are complete, the stock that is gone is the PAID units plus, for each unpaid order, one minus its restores times its units |
| `Completion.UndisturbedRunsRestoreOnce` | src/domain/services/outbox-polling.service.ts:224-235 | with one poller, restores that commit and marks that succeed, an order is restored at most once and a complete unpaid one exactly once |
| `Completion.UndisturbedBooksBalance` | src/domain/services/outbox-polling.service.ts:164-237 | then the stock that is gone is exactly the units of the PAID orders |
| `Completion.FailedMarkRestoresAgain` | src/domain/services/outbox-polling.service.ts:62-65 | a restore whose mark fails is committed again by the next attempt |
| `Completion.FailedRestoreIsForgotten` | src/domain/services/outbox-polling.service.ts:206-212 | a restore that fails is marked all the same and nothing comes back |
| `Drain.StepDrains` | src/domain/services/outbox-polling.service.ts:52-88 | in a fault-free system every poll, publication, mark, delivery, compensation and recovery lowers one measure over all orders |
| `Drain.DrainIsBounded` | src/domain/services/outbox-polling.service.ts:52-88 | so no fault-free run is longer than the measure it starts with |
| `Drain.DrainCompletes` | src/domain/services/outbox-polling.service.ts:52-88 | from every state of a fault-free system some further steps, with no new arrivals, complete every order |
| `Drain.StopsExactlyWhenComplete` | src/domain/services/outbox-polling.service.ts:52-88 | in every state a fault-free run reaches, nothing but a new arrival is possible exactly if every order is complete |
| `Drain.DrainIsARun` | src/domain/services/outbox-polling.service.ts:52-88 | fault-free, exactly-once runs are undisturbed runs of the saga |
| `Drain.DrainBalances` | src/domain/services/outbox-polling.service.ts:164-237 | when such a system has stopped, the stock that is gone is the units of the PAID orders |
| `Served.CoveredOrdersArePaid` | src/application/facades/order.facade.ts:124-152 | if the initial stock covers the units of all orders that arrived and each wallet the cost of its user's, every order of a fault-free system whose orders are complete is PAID |
| `Served.PayableOrderIsPaid` | src/application/facades/order.facade.ts:124-152 | from every initial state, every order that stock and balance cover, if only just, has a fault-free run that ends with it PAID, the balance lower by exactly its cost and each stock by exactly its quantity |
| `Served.PaidUnitsWereThere` | src/domain/services/product.service.ts:69-97 | conversely the units of the PAID orders of an undisturbed run never exceed the initial stock |
| `Served.CostsWereThere` | src/domain/services/wallet.service.ts:40-73 | and what a user's paid orders cost never exceeds, in any run, the initial balance and what was charged |
| `Domain.DeductionIsAllOrNothing` | src/domain/services/product.service.ts:79-96 | an order lowers every stocked product by exactly its units, or fails exactly if some product has too few |
| `Domain.RestoreUndoesDeduction` | src/domain/services/outbox-polling.service.ts:175-204 | restoring brings the table back exactly if the first and last quantity of every stocked product agree |
| `Domain.PlacedOrdersCanBeRestored` | src/infrastructure/database/schema.prisma:86 | the unique index on order items guarantees that for every order that was placed |
| `Domain.RepeatedProductIsNotRestored` | src/application/facades/product.facade.ts:51-53 | without it two lines of one product leave the stock short |
| `Effects.AmountOfOne` | src/application/facades/user.facade.ts:96-98 | an item costs price times quantity |
| `Effects.AmountAdds` | src/application/facades/user.facade.ts:96-98 | the items of two lists cost what each list costs |
| `Effects.OneUnitMore` | src/application/facades/user.facade.ts:96-98 | one more unit of any item raises the amount of an order by its price |
| `Effects.AmountIsCost` | src/domain/dtos/info/order/create-order.info.ts:19-23 | the running sum over an order is price times quantity summed item by item |
| `Effects.ChargeCredits` | src/domain/models/wallet.model.ts:42-45 | a charge goes through exactly if there is a wallet, credits exactly the amount and enters exactly one row of it |
| `Effects.ChargeThenPay` | src/domain/models/wallet.model.ts:32-45 | after a charge of a, a payment of b goes through exactly if b is at most the balance before and a, and leaves exactly the rest |
| `Effects.PayThenCharge` | src/domain/models/wallet.model.ts:42-50 | a payment and a charge of as much leave the balance as it was, two versions on |
| `Effects.PlacedExactly` | src/domain/services/order.service.ts:27-60 | an order whose key is free is placed exactly if it has an item and no two items of one product, at any two places |
| `Effects.PlacingCommutes` | src/application/facades/order.facade.ts:98-112 | two orders that can be placed can be placed one after the other, in either order with the same tables |
| `Effects.DeductedExactly` | src/application/facades/product.facade.ts:92-103 | the deduction commits exactly if its row is free and every stocked product covers its quantity; each falls by exactly that and no other changes |
| `Effects.PaidExactly` | src/application/facades/user.facade.ts:93-133 | the payment commits exactly if its row is free and a balance covers the cost, and takes exactly the cost |
| `Transactions.StepInv` | src/infrastructure/database/repositories/product-stock.repository.ts:188-211 | every statement keeps what is locked as it was read, a wallet read either stale by version or present, and an inserted key free of a committed row |
| `Transactions.CommitIsAtomic` | src/infrastructure/database/prisma.service.ts:68-111 | a commit of deduction, restore, payment, charge or success is that transaction in one step on the tables committed before |
| `Transactions.RefusalIsAtomic` | src/domain/services/product.service.ts:79-96 | what the locked rows say of too little stock is what one step would say, and a taken key fails the whole job |
| `Transactions.CommitIsASagaStep` | src/application/facades/user.facade.ts:122-133 | a commit of deduction, payment, success, charge or, while its poller has the row, restore leaves the tables that the saga's step leaves |
| `Transactions.InterleavingIsSerial` | src/infrastructure/database/schema.prisma:140 | after any interleaving of statements, rollbacks included, the tables are those the committed jobs give one at a time in commit order |
| `Interleaved.MoveMatches` | src/infrastructure/database/prisma.service.ts:68-111 | with transactions running statement by statement beside everything else of the saga, every statement, refusal and other step keeps the committed tables equal to the saga's, and the saga's step is always possible |
| `Interleaved.StatementsRunTheSaga` | src/infrastructure/database/prisma.service.ts:68-111 | every statement-level run of the whole system is a run of the saga with the same tables at its end |
| `Interleaved.StatementsConserveStock` | src/infrastructure/database/repositories/product-stock.repository.ts:53-77 | so stock conservation holds at any moment of any such run |
| `StockLocking.CommitIsSerial` | src/infrastructure/database/repositories/product-stock.repository.ts:53-77 | a commit of absolute values is the relative change of its items on what was committed before |
| `StockLocking.OthersCommitNothing` | src/infrastructure/database/repositories/product-stock.repository.ts:188-211 | locking, computing, writing and rolling back leave the committed table as it is |
| `StockLocking.InterleavingIsSerial` | src/infrastructure/database/repositories/product-stock.repository.ts:188-211 | any interleaving of locked transactions commits what the deductions and restores give one at a time in commit order |
| `StockLocking.QuietTableIsSerial` | src/infrastructure/database/repositories/product-stock.repository.ts:53-77 | with no transaction running that is the table itself |
| `StockLocking.SoldExactly` | src/domain/models/product/product-stock.model.ts:26-41 | n deductions of q units against S succeed exactly min(n, S/q) times and leave the rest |
| `WalletVersions.CommitIsSerial` | src/infrastructure/database/repositories/wallet.repository.ts:36-65 | a versioned write that commits is the payment or charge on the balance as committed before |
| `WalletVersions.InterleavingIsSerial` | src/domain/services/point.service.ts:20-54 | any interleaving of charges and payments ends as a serial run of the committed ones, and no balance goes below zero |
| `WalletVersions.VersionOrder` | src/infrastructure/database/repositories/wallet.repository.ts:67-98 | the version of a wallet counts its commits, so version order is commit order |
| `Reservation.ReservationStore.ReserveStock` | src/infrastructure/cache/stores/product-stock.cache.store.ts:32-51 | the insertion loop adds exactly `quantity` fresh members with one score, and the set goes on refining the history |
| `Reservation.ReservationStore.CountReservedStock` | src/infrastructure/cache/stores/product-stock.cache.store.ts:54-71 | prune then count is the units of the admissions live at that time; with a clock that never goes back, of all admissions unexpired then |
| `Reservation.PruneSet` | src/infrastructure/cache/stores/product-stock.cache.store.ts:59-66 | removing expired members is removing expired admissions |
| `Reservation.LiveExactly` | src/infrastructure/cache/stores/product-stock.cache.store.ts:54-71 | an admission is still in the set exactly if no prune since came at its expiry or later, whatever the clock did |
| `Reservation.LiveAtPrune` | src/infrastructure/cache/stores/product-stock.cache.store.ts:54-71 | with a clock that never goes back a prune leaves exactly the unexpired admissions of all time |
| `Reservation.CapacityIs` | src/domain/services/product.service.ts:122-126 | the window admits n units exactly if five times n is at most six times the stock |
| `Reservation.UnexpiredUnits` | src/infrastructure/cache/stores/product-stock.cache.store.ts:32-51 | the unexpired units are those admitted in the last 300 seconds |
| `Reservation.Reserve` | src/domain/services/product.service.ts:99-134 | admitted exactly if five times the units still live and the quantity is at most six times the stock, whatever the clock did; with a clock that never goes back those are the units admitted in the last 300 seconds, and five times the units admitted in the 300 seconds up to an admission never exceeds six times the stock |
| `Overshoot.StepBounded` | src/domain/services/product.service.ts:118-133 | every prune, check, insertion and crash keeps the overshoot bound |
| `Overshoot.OvershootIsBounded` | src/domain/services/product.service.ts:118-133 | with k overlapping admissions of at most Q units, five times the live and approved units never exceed six times the stock by more than five times (k-1)*Q |
| `Overshoot.OvershootIsReached` | src/infrastructure/cache/stores/product-stock.cache.store.ts:38-50 | for every stock, k and Q that fits there is a run that reaches the bound: one unit more would exceed it |
| `Json.EscapedChar` | src/domain/models/outbox-event.model.ts:43-50 | every character, escaped or not, is read back as itself |
| `Json.QuotedString` | src/domain/models/outbox-event.model.ts:43-50 | every string, quoted, is read back up to its closing quote |
| `Json.ParseStringify` | src/domain/models/outbox-event.model.ts:43-50 | parsing what stringify writes gives the value back, for every value |
| `ArrayPayloads.ReadJsonWeight` | src/domain/services/outbox-polling.service.ts:114-116 | a value weighs no more than the text it is read from, escapes and numbers included |
| `ArrayPayloads.NoArrayComesBack` | src/presentation/consumer/user.event.consumer.ts:22-29 | no array is what its own text parses to |
| `ArrayPayloads.DecodersAgreeExactly` | src/presentation/consumer/product.event.consumer.ts:22-29 | poller and compensation read every payload column alike, failures included, and a consumer reads it as they do unless, exactly, it is an array that arrives as text; no handler stores an array |
| `Payload.OrderJsonText` | src/domain/dtos/info/order/create-order.info.ts:25-33 | the text stored for an order: its id, user and PENDING_PAYMENT status, then product, quantity and price of its items in order |
| `Payload.StoredOrdersAreRead` | src/domain/services/outbox-polling.service.ts:164-167 | every decoder recovers exactly the order that was stored |
| `Payload.PayloadIsCarried` | src/application/facades/order.facade.ts:124-133 | through any number of stages the payload is the one the order was created with |
| `Payload.AggregateIdsDiffer` | src/application/facades/order.facade.ts:75 | two orders never share an aggregate id, hence never an outbox key |
| `Store.ProductStockModel.Deduct` | src/domain/models/product/product-stock.model.ts:30-41 | lowers the stock, or throws out of stock and leaves it |
| `Store.Database.FindByIdsWithXLock` | src/infrastructure/database/repositories/product-stock.repository.ts:188-211 | one fresh model with the row's stock for each requested product that has a row, and no other; a conflict for an empty list |
| `Store.Database.UpdateBulk` | src/infrastructure/database/repositories/product-stock.repository.ts:53-77 | every model's stock is in its row and no other row has changed |
| `Store.Database.UpdateWallet` | src/infrastructure/database/repositories/wallet.repository.ts:36-65 | writes the balance and the next version exactly if the version is the one read |
| `Store.Database.CreateOutbox` | src/infrastructure/database/repositories/outbox-event.repository.ts:24-34 | inserts the row unless its key exists |
| `Store.Database.UpdateByAggregateIdAndEventType` | src/infrastructure/database/repositories/outbox-event.repository.ts:50-64 | sets the status of one existing row |
| `Handlers.DeductStock` | src/domain/services/product.service.ts:69-97 | loading, lowering and writing back the models row by row is the all-or-nothing deduction, unless a statement that is reached fails |
| `Handlers.CompletePayment` | src/domain/services/wallet.service.ts:40-73 | goes through exactly if there is a wallet, the balance is at least the amount and no reached statement fails; then the balance falls by the amount, the version rises by one and one USE row is appended; otherwise the error of the payment |
| `Handlers.ProcessOrderDeductStock` | src/application/facades/product.facade.ts:47-113 | for every failing statement and every order what one transaction and its recovery leave; without a product twice that is one of three ends: every stocked product lower by exactly its quantity with an INIT row, too little stock with the old stock and a FAIL row, or the old stock with `order.created` INIT again |
| `Handlers.ProcessOrderPayment` | src/application/facades/user.facade.ts:93-138 | for every failing statement: exactly if the balance covers price times quantity of the items, the row is free and no reached statement fails, the wallet is charged that much with one USE row and an INIT row; otherwise money and ledger stay as they are and only the FAIL row is attempted |
| `Handlers.ProcessOrderSuccess` | src/application/facades/order.facade.ts:124-152 | PAID and the success row together exactly if the order exists, the row is free and no reached statement fails, whatever the status was; nothing otherwise |
| `Handlers.ChargePoint` | src/domain/services/point.service.ts:20-54 | exactly if there is a wallet and no reached statement fails, the balance rises by the amount, the version by one, one CHARGE row of that amount is appended and nothing else changes; nothing otherwise |
| `Handlers.PlaceOrder` | src/application/facades/order.facade.ts:98-112 | order, items and `order.created` row together; if the key is free, exactly if there is an item, no two items have one product and no reached statement fails; nothing otherwise |
| `Handlers.DeductHandlerIsARun` | src/application/facades/product.facade.ts:92-112 | a call of the handler is a legal run of the saga that leaves the same tables and nothing owed |
| `Handlers.PaymentHandlerIsARun` | src/application/facades/user.facade.ts:122-138 | so is a call of the payment handler |
| `Poller.FindEventsByStatus` | src/infrastructure/database/repositories/outbox-event.repository.ts:130-142 | distinct rows of the status, min(500, all of them) |
| `Poller.Produce` | src/infrastructure/producer/product.producer.ts:32-44 | one try and three retries: acknowledged exactly if fewer than four fail |
| `Poller.ProcessOutboxEvent` | src/domain/services/outbox-polling.service.ts:112-162 | the row's payload is on its topic exactly if a publication was acknowledged or reached it all the same; the row is marked exactly if one was acknowledged and the mark is written, and is otherwise left as it is |
| `Poller.HandleInitEvent` | src/domain/services/outbox-polling.service.ts:56-68 | the retries and the FAIL mark around it are never reached, because nothing is thrown |
| `Poller.HandleInitEvents` | src/domain/services/outbox-polling.service.ts:70-95 | every row of the batch is handled once whatever happened to the others, no other row changes, and the topics gain what the batch sends and nothing else |
| `Poller.InitPassIsARun` | src/domain/services/outbox-polling.service.ts:70-95 | such a pass is a legal run of the saga from reading to the last mark: outbox and topics as the method leaves them, no task left, and as many publications in the log as it counts |
| `Poller.PassClears` | src/domain/services/outbox-polling.service.ts:70-95 | a fault-free pass marks exactly min(500, the INIT rows) and touches no FAIL row |
| `Poller.FourSendsAtMost` | src/infrastructure/producer/product.producer.ts:42 | a pass sends at most four times its batch |
| `Compensation.RestoreStock` | src/domain/services/outbox-polling.service.ts:192-205 | commits exactly if no statement on its locked rows fails, restores all rows or none, and lets out nothing but conflicts |
| `Compensation.ExecuteCompensation` | src/domain/services/outbox-polling.service.ts:164-237 | restore or FAILED as the faults allow, then the mark; the branch that would set FAILED after a restore is never taken |
| `Compensation.HandleFailedEvent` | src/domain/services/outbox-polling.service.ts:56-68 | attempts until one is marked, four at most, then the FAIL mark; the tables follow from the faults of the attempts, and the handler fails exactly if nothing could be marked |
| `Compensation.StockComesBackEveryTime` | src/domain/services/outbox-polling.service.ts:192-215 | the stock comes back once for every attempt up to the first marked one whose faults let its restore commit |
| `Compensation.RestoredExactly` | src/domain/services/outbox-polling.service.ts:192-235 | the stock of an ordered product is right afterwards exactly if, of the attempts up to the first marked one, one and no other has a restore without a fault |
| `Compensation.HandlingIsARun` | src/domain/services/outbox-polling.service.ts:239-245 | handling one FAIL row is a legal run of the saga that ends its task and logs every restore |
| `Compensation.HandleFailedEvents` | src/domain/services/outbox-polling.service.ts:97-110 | the rows of one batch are handled in turn, up to the first whose FAIL mark cannot be written |
| `Compensation.FailPassClears` | src/domain/services/outbox-polling.service.ts:70-88 | if no first attempt meets a fault, a pass marks exactly min(500, the FAIL rows) and touches no INIT row |
| `Compensation.FailPassIsARun` | src/domain/services/outbox-polling.service.ts:97-110 | such a pass, cut short or not, is a legal run of the saga with the same tables, no task left and the topics untouched |

## Left out

- Kafka, Redis, MySQL, Prisma and MurLock: only their contracts are modelled (a topic keeps what it was sent and delivers it any number of times, a sorted set maps members to scores, transactions are atomic with unique keys and row locks, a lock that fails drops the message).
- Deadlocks and the victim MySQL picks: a transaction may be rolled back at any moment, which covers them.
- JavaScript numbers: the product `stock * 1.2` is taken exactly as `6 * stock / 5`, amounts in hundredths without rounding, ids and stock without a 32-bit or 53-bit limit.
- Timing: poll spacing, retry delays and transaction timeouts appear only as failures and as order.
- Liveness with duplicate delivery, lost writes or crashes: the code does not give it.
- How often a message stands on a topic: a topic is a set, since consumers may see a message any number of times anyway.
- The concurrency of five within a pass: the two pass methods take their rows one after the other; interleaved handling is covered by the saga's steps.
- Placing an order and opening a wallet statement by statement: they touch only rows of a new id, and are single steps in `Interleaved`.
- JSON: white space, exponents, more than two decimals, `true`, `false`, `null` and surrogate pairs; order payloads have none of them.
- The price and product lookups before an order is placed, and the reservations of several products that are kept when a later one is refused: reservations are never released, they only expire.
- `ORDER_FAILED` events, which nothing creates, and the warning counter of failed deductions.
- Sign-up, sign-in, tokens, carts, product cache, popular products, controllers, guards, interceptors, logging and configuration: wiring or short lookups.
