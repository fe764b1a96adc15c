# Order service: verification model

This project models the order service of an online shop in Dafny and proves properties of the model. The service
creates and cancels orders against a stock table, charges them through an external payment provider, refunds
cancelled orders, repairs payments whose outcome was lost, reconciles its tables with the provider's journal, and
announces every order through a transactional outbox to consumers in other services.

Everything is stated over whole runs with any number of actors. Each actor may die between two statements, any reply
of the provider may be lost after the provider acted, and Kafka may keep a message that it did not acknowledge.

| files | what they hold |
|---|---|
| `Domain`, `Tables` | statuses and transition tables; the database tables and the provider's journal as values |
| `Orders`, `Payments`, `Reconciliation`, `Answers` | the transactions, the provider's calls and the decision table as functions, and when each gives each of its answers |
| `Protocol`, `Invariant`, `Preservation`, `Runs`, `Effects` | the payment protocol as a state machine, and its inductive invariant |
| `PaymentTheorems`, `Amounts`, `DoubleCharge`, `EventLog`, `Timing`, `Conservation`, `Witnesses` | what the invariant gives: money, amounts, orders, event log, dates, stock; runs that show where the guarantees end |
| `Store`, `Deployment`, `PayAnswers`, `PayService`, `WorkerVisits`, `Workers`, `StuckVisits`, `JobSpec`, `Job`, `JobTheorems`, `JobRun` | the repositories, `Pay`, the two workers and the reconciliation job in imperative form, proved against the functions and the state machine, and what their answers and visits mean |
| `RowLocks`, `LockInvariant`, `LockRefinement`, `Deadlock`, `DeadlockRuns`, `DeadlockPairs`, `CancelDeadlocks` | order and payment transactions statement by statement under row locks: serializability and deadlocks |
| `Outbox`, `OutboxTheorems`, `Relay` | outbox, relays, dead-letter table, clean-up, consumers with an inbox |
| `IdempotencyLease`, `Idempotent`, `Breaker`, `Backoff`, `StuckQueue`, `RefundQueue`, `PageWalk` | key lease, circuit breaker, back-off on 64-bit words, the workers' queues, the keyset page walk |

## What the code does not guarantee

Six statements one might expect are false of the code. Each has a concrete run and an exact condition.

- **An order can be charged twice.** A charge request that is still on its way when its payment is expired can land
  after the order was paid under another key (`Witnesses.DoubleChargeHappens`). A paid order can be charged twice exactly
  if an expired payment of it took money or has an unanswered request on its way
  (`DoubleCharge.PaidOrderChargedTwiceIff`, from `DoubleCharge.ExpiredCanBeChargedIff`); without such expiries no order
  is charged twice (`DoubleCharge.CleanRunNeverChargesTwice`).
- **The reconciliation job raises false alarms.** It lists the provider's charges before it reads our payments, so
  money that moves in between looks lost (`Witnesses.FalseAlarmHappens`); a period whose margin ended before a charge
  was made misses that charge (`Witnesses.OldPeriodMisreports`); and it fixes a key long after it read the payment, so a
  payment that Pay, a worker or another run has moved by then makes the fix fail, and a key with nothing wrong is
  counted as manual (`Witnesses.LateFixReportsSettledKey`). What the two reads leave to a person, for any period, margin
  and activity between them: `JobTheorems.RunReportsExactly`. Which of the promised fixes end up there as well, for any
  activity before their turn and failing statements: `JobTheorems.FixReportsExactly`, and of the running job
  `JobRun.ReportedExactly`. What it lists: `JobTheorems.ListedIff`. Listed before the margin has run out, nothing is
  missed (`JobTheorems.TimelyListIsComplete`).
- **A refund can stay in the worker's queue.** If the job dies between the two statements of its refund fix
  (`Witnesses.OrphanedRefundHappens`), the row is pending and its payment refunded. The worker then fails to record the
  success at every visit, and the attempt limit, which only a refusal checks, never applies; a later run of the job, or
  refusals up to the limit, end it. Exactly these rows can wait through any number of completed visits
  (`RefundQueue.WaitsForeverIff`); every other one has fewer than the limit (`RefundQueue.QueueIsLeft`).
- **An exhausted outbox event can be stranded.** If the statement that moves it to the dead-letter table fails after
  the fifth strike, nothing ever touches the row again (`OutboxTheorems.StrandingHappens`,
  `OutboxTheorems.ExhaustedLeavesIffMoving`). The comment at `order-service/internal/worker/outbox_relay.go:252-254`
  says such rows no longer stay in the outbox.
- **Transactions can deadlock.** `CreateOrder` calls never do among themselves, but `CancelOrder` updates products in
  the order of the query plan, and `start` meets a payment row that `Transition` has rewritten before asking for the
  order. Two calls that wait for each other are a cancel with a create or another cancel, or a start with a move to
  succeeded (`CancelDeadlocks.NoOtherPairs`). A cancel can deadlock with some create exactly if its plan visits a
  product before a lower one, both in stock (`DeadlockPairs.CancelDeadlocksIff`); two cancels exactly if their plans
  begin the products they share with different ones (`CancelDeadlocks.CancelsDeadlockIff`) — visiting two products in
  opposite orders is not enough when both visit a third one first (`CancelDeadlocks.CrossingIsNotEnough`); a start with
  a move to succeeded exactly if that is the pending payment of its own open order
  (`DeadlockPairs.StartDeadlocksIff`). With ascending plans and no such meeting no run deadlocks
  (`DeadlockRuns.NeverDeadlocks`).
- **A lease does not always protect its owner.** `Release` asks for no owner, so an execution that writes after its
  lease ends the lease of the next one (`IdempotencyLease.StaleReleaseEndsALiveLease`); a takeover does not renew the
  key's time to live (`IdempotencyLease.TakeoverDoesNotRenewTheKey`). A lease fails to protect exactly if, at the claim,
  an older execution of the key was at work or the key was to expire first
  (`IdempotencyLease.LeaseFailsToProtectIff`). A stored answer can be overwritten
  (`IdempotencyLease.LateFinishChangesTheAnswer`) exactly if an execution of its key is under way
  (`IdempotencyLease.AnswerCanChangeIff`). An execution's context ends 8 seconds after it starts
  (`order-service/internal/handler/idempotency.go:28-30,58-60`), well before its 15-second lease, so writing after the
  lease takes a statement that was sent before, or a process that stalled for seconds. If contexts are obeyed to the
  letter, executions that can still write never overlap and answers stand, unless the key is about to expire
  (`IdempotencyLease.AbleNeverOverlap`, `IdempotencyLease.PromptAnswerIsReplayed`).

## Model

| member | source | states |
|---|---|---|
| `PaymentTheorems.ClassifyIsComplete` | order-service/internal/reconciliation/classify.go:61-109 | In every reachable state, on one snapshot of any key, the decision table answers matched, one of the three safe fixes, or manual; it proposes each fix exactly in the situation the fix is for, and manual exactly for a payment expired here and charged there. Lost, foreign and mispriced charges never appear. |
| `PaymentTheorems.ClassifyWithLateRead` | order-service/internal/reconciliation/classify.go:61-109 | The decision table on our row now and on the provider entry of the key as the journal had it earlier, with any activity in between: exactly which keys need a person. What a run with its period and margin lists is JobTheorems.ListedIff. |
| `Answers.ClassifyAnswers` | order-service/internal/reconciliation/classify.go:61-109 | For any two records, also those that no run produces: each kind and each fix of the decision table if and only if its condition on presence, amounts and statuses holds. |
| `PaymentTheorems.EveryChargeIsOurs` | order-service/internal/payment/fake_provider.go:54-91 | At most one charge entry per key, each made for our payment with that key and for the fixed total of its order. |
| `Amounts.EverythingIsForTheCost` | order-service/internal/repository/payment_repo.go:98-112 | From the moment an order is created, in every run: each payment for it, each charge under such a payment's key, each refund row and each refund at the provider is for the sum over the requested lines of quantity times the price on the shelf at creation. |
| `Amounts.TotalAppend` | order-service/internal/repository/payment_repo.go:98-99 | The sum over an order's items adds up over any split of them; with TotalOfOne this fixes it. |
| `Amounts.TotalOfOne` | order-service/internal/repository/payment_repo.go:98-99 | One item costs its price times its quantity. |
| `PaymentTheorems.StatusAgreesWithJournal` | order-service/internal/repository/payment_repo.go:124-167 | Succeeded or refunded means charged there under that charge id and amount; failed means declined there; refunded means given back there. |
| `PaymentTheorems.OrdersAgreeWithPayments` | order-service/internal/repository/payment_repo.go:85-116 | A pending payment has a pending order; a paid order has exactly one succeeded payment and no refund; a cancelled order has no pending payment. |
| `PaymentTheorems.ChargedOrderIsStillOpen` | order-service/internal/repository/payment_repo.go:156-165 | In no reachable state can `Transition` fail with "order is no longer pending", whatever it is called with. |
| `PaymentTheorems.PaidThenCancelledIsRefundedOnce` | order-service/internal/repository/order.go:274-282 | A cancelled order whose payment went through has exactly one refund row, for the full amount. |
| `PaymentTheorems.EachChargeReturnedAtMostOnce` | order-service/internal/payment/fake_provider.go:101-125 | The provider gives back each charge at most once, only charges it took, in full, despite overlapping leases, crashes and lost replies. |
| `PaymentTheorems.RefundChain` | order-service/internal/worker/refund_worker.go:144-179 | Refund row succeeded implies payment refunded implies a provider refund of this payment's charge under this refund's key. |
| `Runs.RunKeeps` | order-service/internal/service/payment_service.go:44-95 | The inductive invariant over tables, journal and every call in flight holds after any run of all actors, and nothing written is ever taken back. |
| `DoubleCharge.TwoChargesMeanOneExpired` | order-service/internal/repository/payment_repo.go:77-120 | Of two payments of one order that both took money, one is expired. |
| `DoubleCharge.ExpiredCanBeChargedIff` | order-service/internal/worker/reconcile_worker.go:180-182 | An expired payment can end up charged if and only if it was charged already or an unanswered request for it is on its way. |
| `DoubleCharge.PaidOrderChargedTwiceIff` | order-service/internal/worker/reconcile_worker.go:180-182 | A paid order can come to be charged twice, now or in any run from here, if and only if an expired payment of it took money or has a request under way that the provider has not answered. |
| `DoubleCharge.CleanRunNeverChargesTwice` | order-service/internal/service/payment_service.go:52-63 | If payments are expired only when nothing was taken and nothing is on its way, no order is charged twice in any run. |
| `Witnesses.DoubleChargeHappens` | order-service/internal/reconciliation/classify.go:107-108 | A run from the initial state in which one order is charged twice. |
| `Witnesses.FalseAlarmHappens` | order-service/internal/reconciliation/job.go:83-114 | A run in which a key is reported missing at the provider although nothing was missing before or after. |
| `EventLog.EventLogIsFaithful` | order-service/internal/repository/payment_repo.go:169-178 | Each payment's events form one chain of allowed transitions from creation to its current status, at most three, whichever of the three writers made the change. |
| `Domain.PaymentPathsAreShort` | order-service/internal/domain/payment.go:20-47 | A payment never returns to a status it left, and no path of allowed transitions has more than three statuses. |
| `Orders.CheckLinesIsGoodLines` | order-service/internal/service/order_service.go:71-91 | The request check accepts exactly the requests with positive quantities and distinct products. |
| `Orders.ComplaintIsFirst` | order-service/internal/service/order_service.go:71-91 | The complaint is that of the first bad line: no positive quantity, or else a product named before. |
| `Answers.CreateAnswers` | order-service/internal/repository/order.go:33-97 | A checked request is answered with the order of a used key exactly if the key is used; otherwise an order is made exactly if every line is available, and the first unavailable product, in the order of ids, is reported missing or too scarce as it is. |
| `Answers.CreateEffects` | order-service/internal/repository/order.go:64-97 | The new order is open with one item for every line at the price on the shelf, the shelf has less just what it holds, the key leads to it, and nothing else changes. |
| `Answers.CancelAnswers` | order-service/internal/repository/order.go:219-262 | Each answer of cancelling exactly for its reason: no such order, cancelled already, shipped or delivered, a pending payment of an open order; and then nothing changes. |
| `Answers.CancelEffects` | order-service/internal/repository/order.go:264-306 | A cancel sets this order's status, makes a refund of the whole succeeded payment of a paid order that has none, gives back what the order holds of every product, and changes nothing else. |
| `Orders.CancelRestoresAllIffNoDuplicates` | order-service/internal/repository/order.go:286-290 | One-match-per-product restoring gives back all stock of an order if and only if no product occurs in it twice. |
| `Orders.SortLinesSorts` | order-service/internal/repository/order.go:60-62 | Sorting orders the lines by product and keeps exactly the same lines. |
| `Orders.ReserveMovesStock` | order-service/internal/repository/order.go:64-90 | What the loop over items takes from each product is what the new order holds of it, and no stock goes below zero. |
| `Conservation.StockIsConserved` | order-service/internal/repository/order.go:71-80 | In every run and for every product, stock plus what non-cancelled orders hold is the initial stock, and stock never goes below zero. |
| `Conservation.CreationKeyMakesOneOrder` | order-service/internal/repository/order.go:34-50 | A creation key that made an order answers with that order for good: no later request under it makes an order or moves stock, and no other key leads to that order. |
| `Store.CheckItems` | order-service/internal/service/order_service.go:71-91 | The validation loop with its map of seen products returns the first complaint of the check. |
| `Store.SortByProduct` | order-service/internal/repository/order.go:60-62 | The in-place sort equals the functional sort of the old contents. |
| `Store.Database.CreateOrder` | order-service/internal/repository/order.go:33-97 | Statement by statement with rollback, the new tables and the answer are those of the creation transaction. |
| `Store.Database.CancelOrder` | order-service/internal/repository/order.go:219-306 | Same for cancelling: status, refund row and stock together or not at all, with each error case. |
| `Store.Database.Start` | order-service/internal/repository/payment_repo.go:77-120 | Same for `start`, with the order lock, the amount check and the two unique indexes. |
| `Store.Database.Transition` | order-service/internal/repository/payment_repo.go:124-167 | Same for `Transition`, including the rollback of payment and event when the order is no longer pending. |
| `Store.Database.MarkRefundSucceeded` | order-service/internal/worker/refund_worker.go:144-179 | Same for `markSucceeded`: refund row, payment and event together, all put back if the payment cannot be refunded. |
| `Store.Database.MarkRefundFailed` | order-service/internal/worker/refund_worker.go:181-201 | Same for `markFailed`: manual review at the attempt limit, otherwise the next attempt time. |
| `Store.FakeProvider.Charge` | order-service/internal/payment/fake_provider.go:54-91 | The first call under a key decides; later calls answer the same and add nothing; a provider that is down changes nothing. |
| `Store.FakeProvider.Refund` | order-service/internal/payment/fake_provider.go:101-125 | The first refund under a key is recorded; repeats answer with it. |
| `Store.FakeProvider.ChargeStatus` | order-service/internal/payment/fake_provider.go:138-158 | Unavailable, not found, declined or charged, as the journal has it. |
| `Store.FakeProvider.ListCharges` | order-service/internal/payment/fake_provider.go:171-199 | The loop returns exactly the charges of the period in journal order, a charged one that was refunded shown as refunded. |
| `Job.ListedExactly` | order-service/internal/payment/fake_provider.go:171-199 | An entry is in the list if and only if it is a journal entry dated in the period. |
| `PayService.PayOrder` | order-service/internal/service/payment_service.go:44-95 | With anything happening between its statements and any of its transactions failing or committing unheard, the whole call is a run of the protocol that ends the call, and each answer is given if and only if its statements met what it says: a charge id exactly for a payment found succeeded or moved there by this call and heard; a decline exactly for a payment found failed or a decline heard from the provider; an unknown outcome exactly for a request that was lost or met a provider that was down; a refusal to start exactly for its reason in the order, its total, its live payment or the key; not recorded exactly for a heard charge whose transition failed, was unheard or was refused. What a charge id or a decline says holds of tables and journal. |
| `PayService.StartOrResume` | order-service/internal/repository/payment_repo.go:60-75 | Look up, create, look up again on a taken key, each of which may fail: ends with the answer that what the statements met calls for, or ready to charge under the caller's key with nothing met that ends the call. |
| `PayService.ChargeAndRecord` | order-service/internal/service/payment_service.go:64-94 | Charge request and transition are a run of the protocol, and each answer is given exactly if the provider's answer was heard, what it was, and whether the transition moved the payment and was heard. |
| `Answers.StartAnswers` | order-service/internal/repository/payment_repo.go:77-120 | For any tables: `start` creates the payment exactly if the order is open, costs something, has no live payment and the key is free, for the order's total; each refusal exactly for its reason, and then nothing changes. |
| `Answers.TransitionAnswers` | order-service/internal/repository/payment_repo.go:124-167 | For any tables: a payment moves exactly along the four allowed pairs and, to succeeded, only with an open order; each error exactly for its reason, and then nothing changes; a move changes that row, its order and the log and nothing else. |
| `Workers.ProcessDueRefunds` | order-service/internal/worker/refund_worker.go:89-142 | The leasing statement picks the first due rows in id order; every one of them is then served as its visit should be, whatever the others do; no call is left over, and the whole execution is a run of the protocol. |
| `Workers.ProcessDuePayments` | order-service/internal/worker/reconcile_worker.go:113-160 | Same for the stuck-payment worker. |
| `Workers.HandleStuck` | order-service/internal/worker/reconcile_worker.go:162-233 | One stuck payment: if the check is heard and decides, the payment, if still pending, gets just that outcome: succeeded with the charge the journal has under its key, failed if it is declined there, expired if it is absent and old enough. Still pending afterwards means no key, no clear answer, absent and too young, or a failed record; then it is parked or checked again after the doubled pause. |
| `StuckVisits.StaysQueuedOnlyIf` | order-service/internal/worker/reconcile_worker.go:162-233 | In every run, a completed visit that leaves its payment queued had a check without a clear answer, one that found nothing too early, or a record that failed. |
| `StuckVisits.RecordsWhatWasFound` | order-service/internal/worker/reconcile_worker.go:171-203 | In every run, the record of a visit takes a payment that is still pending to the outcome that its own check found in the provider's journal. |
| `StuckVisits.CheckLeads` | order-service/internal/worker/reconcile_worker.go:162-203 | A status check leads to a record of the outcome it found, to a counted or uncounted further check, or to parking, exactly as key, answer, journal and age say. |
| `Workers.HandleRefund` | order-service/internal/worker/refund_worker.go:125-140 | One due refund: a heard answer means the provider has the refund, and row and payment are closed together if the payment is succeeded; an unheard one means manual review at the attempt limit and otherwise a next attempt after the doubled pause. |
| `Workers.DueRefundsExactly` | order-service/internal/worker/refund_worker.go:93-107 | The leased rows are due, in ascending order, and if the batch is not full no due row is left out. |
| `Workers.DueChecksExactly` | order-service/internal/worker/reconcile_worker.go:123-136 | Same for the stuck payments. |
| `Workers.Mark` | order-service/internal/worker/reconcile_worker.go:205-233 | The last write of a visit is a step of the protocol, and a pause is the one the back-off computes. |
| `Workers.MarkRefund` | order-service/internal/worker/refund_worker.go:140-201 | The last write of a refund visit is a step of the protocol; a success closes row and payment together, and a pause is the one the back-off computes. |
| `RefundQueue.LeasesAreApart` | order-service/internal/worker/refund_worker.go:93-107 | A leased refund is not leased again by any worker before its lease is over or a refusal of it is recorded. |
| `JobRun.Run` | order-service/internal/reconciliation/job.go:80-184 | With anything happening after the list and before and inside every fix, and with fixes that fail or commit unheard, the whole run is a run of the protocol: its list and read are the stated steps, every key of the period comes out as its two records and the tables at the moment its fix begins say, and the counters are the numbers of keys with each outcome, checked = matched + auto-fixed + manual, and manual is the sum over kinds. A provider that is down changes nothing. With nobody else at work it leaves exactly the tables that treating every key of the period determines. |
| `JobRun.ReportedExactly` | order-service/internal/reconciliation/job.go:143-165 | Of a run of the deployed job: a key is left to a person if and only if the two reads leave it to one, or they promise a fix and by the time the fix begins the payment has another status, or a statement of the fix fails. |
| `JobRun.TreatKey` | order-service/internal/reconciliation/job.go:143-165 | One key of the loop: its fix begins after whatever the others do and goes through or not as the tables then say; only a failing statement cuts it short. |
| `Job.AnyOrderSameTables` | order-service/internal/reconciliation/job.go:143-169 | Treating the keys one after another in any order gives those tables. |
| `Job.AnyOrderSameReport` | order-service/internal/reconciliation/job.go:143-169 | The counters after any order of the keys are the numbers of keys with each outcome. |
| `JobTheorems.AnyTwoOrdersAgree` | order-service/internal/reconciliation/job.go:143-169 | Any two orders of the same keys give equal rows, equal event logs per payment and equal counts. |
| `JobRun.Fix` | order-service/internal/reconciliation/job.go:186-206 | Each auto-fix is a stretch of the protocol that ends its call, with others acting between its two statements; it reports whether every statement was heard to work. |
| `Job.IndexTheirs` | order-service/internal/reconciliation/job.go:87-97 | The map by key holds the provider's entry of the wider window for each key, and the key set those dated inside the period. |
| `Job.IndexOurs` | order-service/internal/reconciliation/job.go:101-134 | The map by key holds our payment for each key of the period or seen by the provider in it. |
| `JobTheorems.SecondRunFixesNothing` | order-service/internal/reconciliation/job.go:143-169 | A second run over the same window with nothing in between fixes nothing, changes no row, and leaves the same keys of each kind to a person. |
| `JobTheorems.SecondReportIsQuiet` | order-service/internal/reconciliation/job.go:143-178 | The loop over the keys of a period in any order, then again in any other order: the second report counts no fixes and the same manual numbers per kind, and no row changes. |
| `JobTheorems.RunReportsExactly` | order-service/internal/reconciliation/job.go:80-150 | For any period and margin, with the list read in one reachable state and our payments in any later one: the two reads leave a key to a person exactly if it is expired here and listed as charged, took money here and is not listed, or is refunded here and listed as charged. What becomes of the proposed fixes is FixReportsExactly. |
| `JobTheorems.FixReportsExactly` | order-service/internal/reconciliation/job.go:143-165 | With the list in one reachable state, the read in a later one and the fix in a third, anything in between: a matched key stays matched, and a key goes to a person if and only if the reads leave it to one, or they promise a fix and its payment has another status by then, or a statement of the fix fails. |
| `JobTheorems.ListedIff` | order-service/internal/reconciliation/job.go:83-97 | A charge of a key the run looks at is listed if and only if it was made before the end of the margin. |
| `JobSpec.KeysExactly` | order-service/internal/reconciliation/job.go:94-134 | A run looks at a key exactly if our payment with it was created in the period or a charge under it is dated in the period. |
| `JobTheorems.TimelyListIsComplete` | order-service/internal/reconciliation/job.go:71-73 | A list made before the margin after the period has run out, as both schedulers make it, has every charge of a key of the period. |
| `JobTheorems.RunSettlesReachableState` | order-service/internal/reconciliation/job.go:146-165 | On one reachable state, listed before the margin has run out, with nothing happening before the fixes: every proposed fix goes through, and a key is left to a person exactly if it is expired here and charged there. |
| `Timing.ReachableTimes` | order-service/internal/repository/payment_repo.go:104-106 | In every reachable state a payment was created no later than any charge under its key, and nothing is dated ahead of the clock. |
| `Witnesses.OldPeriodMisreports` | order-service/internal/reconciliation/job.go:83-83 | A run over a period whose margin ended before the charge reports a paid payment as missing, with nothing going on meanwhile. |
| `Witnesses.LateFixReportsSettledKey` | order-service/internal/reconciliation/job.go:153-165 | A run in which the job reads a payment that is charged and not yet recorded, Pay records it, the job's fix then fails, and a key with nothing wrong is reported. |
| `LockRefinement.LocksSerialize` | order-service/internal/repository/payment_repo.go:77-167 | Statement by statement under row and index locks, the committed tables after any interleaving equal those of running the finished calls whole, one at a time; every caller gets the answer of that serial run, each call acts once, and a rolled-back call leaves nothing. |
| `LockRefinement.NextRefines` | order-service/internal/repository/order.go:219-306 | A statement changes no committed table unless it is the call's last; then tables and answer are those of the whole transaction at that moment. |
| `LockRefinement.ReachableLocksSerialize` | order-service/internal/repository/payment_repo.go:77-167 | The same from every reachable state of the payment protocol. |
| `LockInvariant.TxStays` | order-service/internal/repository/payment_repo.go:84-94 | What a transaction has read under its locks stays true under every change that respects those locks. |
| `LockInvariant.CommitRespects` | order-service/internal/repository/order.go:60-97 | A commit changes nothing that another transaction has locked. |
| `Deadlock.CreatesNeverDeadlock` | order-service/internal/repository/order.go:34-90 | `CreateOrder` transactions, in any number and with any number of items, never wait for each other in a circle. |
| `Deadlock.DeadlockNeedsInversion` | order-service/internal/repository/order.go:285-291 | In every run, every deadlock of any number of transactions among create, cancel, start and transition goes through a cancel that updates products against their order, or a start that meets a payment being moved to succeeded. |
| `DeadlockRuns.NeverDeadlocks` | order-service/internal/repository/order.go:60-90 | If every cancel visits its products in ascending order, and no payment request meets a payment moved to succeeded on its order or key, no run of any calls deadlocks at any moment. |
| `DeadlockRuns.StartAndTransitionPairIff` | order-service/internal/repository/payment_repo.go:104-110 | A `start` waiting for a payment on its way to succeeded is in a deadlock with that Transition if and only if the payment is of the same order. |
| `DeadlockPairs.CancelDeadlocksIff` | order-service/internal/repository/order.go:285-291 | From any tables, a cancel can deadlock with some create if and only if the order can be cancelled and the query plan visits a product before a lower one, both in stock. |
| `DeadlockPairs.StartDeadlocksIff` | order-service/internal/repository/payment_repo.go:84-160 | From any tables, a `start` can deadlock with a move to succeeded if and only if that payment is the pending one of the same order, and the order is open and costs something. |
| `CancelDeadlocks.CancelsDeadlockIff` | order-service/internal/repository/order.go:285-291 | From any tables, two cancels, each with its own query plan, can deadlock if and only if they are of different orders, both can be cancelled, and their plans begin the products they share with different ones. |
| `CancelDeadlocks.NoOtherPairs` | order-service/internal/repository/order.go:60-90 | In every run of any calls, two that wait for each other are a cancel and a create, two cancels, or a `start` and a move to succeeded. |
| `Deadlock.SomeoneCanMove` | order-service/internal/repository/payment_repo.go:124-167 | While neither happens, some open transaction can always go on. |
| `Deadlock.CreateAndCancelDeadlock` | order-service/internal/repository/order.go:285-291 | A run in which a create and a cancel wait for each other. |
| `Deadlock.StartAndTransitionDeadlock` | order-service/internal/repository/payment_repo.go:104-110 | A run in which `start` and `Transition` wait for each other. |
| `OutboxTheorems.EventsAreConserved` | order-service/internal/worker/outbox_relay.go:140-298 | In every run with any number of relays, each committed order has exactly one copy of its event among outbox, dead-letter table and rows cleaned up, and nothing else has one. |
| `OutboxTheorems.BrokerAgrees` | order-service/internal/worker/outbox_relay.go:187-242 | Published or cleaned up means in the broker; the broker holds committed orders only; a dead letter was never marked published; at most five strikes. |
| `OutboxTheorems.EffectsAtMostOnce` | product-service/consumer.go:70-98 | However often an event is sent or delivered, its effect is committed at most once, exactly when its inbox row is. |
| `OutboxTheorems.StrandedForever` | order-service/internal/worker/outbox_relay.go:252-269 | An exhausted row that no relay is about to move is never sent, moved or changed again. |
| `OutboxTheorems.ExhaustedLeavesIffMoving` | order-service/internal/worker/outbox_relay.go:237-239 | An exhausted row can leave the outbox if and only if a relay is still about to run the dead-letter statement for it. |
| `OutboxTheorems.StrandingHappens` | order-service/internal/worker/outbox_relay.go:255-269 | A run that strands an event. |
| `Relay.ProcessBatch` | order-service/internal/worker/outbox_relay.go:140-242 | The batch is the lowest free rows in id order, at most 100; the whole call with the others acting in between is the stated run; the count and the error are as the reply determines. |
| `Relay.Judge` | order-service/internal/worker/outbox_relay.go:198-216 | The switch and the loop over errors split the batch into acknowledged and permanently refused rows; temporary errors count for neither. |
| `OutboxTheorems.RecordSettles` | order-service/internal/worker/outbox_relay.go:187-242 | After the send, exactly the acknowledged rows are published at that time, exactly those refused for good have one more strike and go on to the dead-letter statement, and every other row is as it was. |
| `OutboxTheorems.MoveSettles` | order-service/internal/worker/outbox_relay.go:255-269 | Of the refused rows exactly those with all attempts used are gone, each leaving one dead letter, and every other row is as it was. |
| `Relay.MoveDead` | order-service/internal/worker/outbox_relay.go:255-269 | The dead-letter statement moves exactly the exhausted ones of the struck rows, or nothing if it fails. |
| `Relay.Cleanup` | order-service/internal/worker/outbox_relay.go:276-298 | Only published rows past the retention go, until none is left or after twenty full batches. |
| `Relay.ProcessWithInbox` | product-service/consumer.go:70-98 | Duplicate exactly if the event was in the inbox, newly done exactly if handler and commit succeeded, otherwise nothing is kept. |
| `IdempotencyLease.GrantsAreApart` | order-service/internal/repository/idempotency_repo.go:33-100 | In every run, while the key lives, the next owner comes only after the lease ran out or some execution of the key, not necessarily the owner, gave it back. |
| `IdempotencyLease.LeaseCanBeCutShortIff` | order-service/internal/repository/idempotency_repo.go:112-116 | While the owner is at work within its grant, its key can be granted to somebody else if and only if, at the claim, an older execution of the key was still at work (and the grant did not end at once). |
| `IdempotencyLease.LeaseFailsToProtectIff` | order-service/internal/repository/idempotency_repo.go:94-99 | Over the whole lease it can if and only if an older execution was at work at the claim or the key was to expire before the lease. |
| `IdempotencyLease.StaleReleaseEndsALiveLease` | order-service/internal/repository/idempotency_repo.go:110-116 | A run in which an owner long past its lease answers 503 and so ends the lease of the next, a day before the key expires. |
| `IdempotencyLease.AnswerCanChangeIff` | order-service/internal/repository/idempotency_repo.go:103-108 | Before the key expires, a stored answer can still be changed if and only if an execution of the key is under way. |
| `IdempotencyLease.CompletedStays` | order-service/internal/repository/idempotency_repo.go:75-84 | Until its time to live is over a completed key is never in progress again, in any run. |
| `IdempotencyLease.ExecutionsNeverOverlap` | order-service/internal/handler/idempotency.go:76-112 | If every owner of a key ends within its grant, no two executions of that key overlap, however late owners of other keys are. |
| `IdempotencyLease.AnswerIsReplayed` | order-service/internal/handler/idempotency.go:76-112 | An execution that has its key to itself and answers below 500 settles the key: whatever happens until it expires, every claim of the same request gets that code and body, and every other request a mismatch. |
| `IdempotencyLease.FailureRunsAgain` | order-service/internal/handler/idempotency.go:95-103 | An answer of 500 or above is not stored: from the next tick on the same request runs again while the key lives, and another one is refused. |
| `IdempotencyLease.AbleNeverOverlap` | order-service/internal/handler/idempotency.go:28-60 | If executions write only until their context ends, and none begins when the key is about to expire, no two executions of a key that can still write overlap in any run; nobody has to end within its lease. |
| `IdempotencyLease.PromptAnswerIsReplayed` | order-service/internal/handler/idempotency.go:76-112 | Under the same conditions an answer below 500 is the one every later claim of the same request gets until the key expires, with late executions of the key still about. |
| `IdempotencyLease.LateFinishChangesTheAnswer` | order-service/internal/repository/idempotency_repo.go:103-109 | A run in which an owner that outlived its lease replaces the stored answer. |
| `IdempotencyLease.TakeoverDoesNotRenewTheKey` | order-service/internal/repository/idempotency_repo.go:94-99 | A run in which two executions overlap, both within their leases, because a takeover keeps the old expiry. |
| `Idempotent.KeyStore.Claim` | order-service/internal/repository/idempotency_repo.go:33-100 | The statements and the switch change the table and answer as the claim function says. |
| `Idempotent.ExecIdempotent` | order-service/internal/handler/idempotency.go:76-112 | The answer by the row it meets: 503 with a retry hint when the claim fails or is unheard, 422 for another request, the stored code and body, 409 with a retry hint while an execution runs, and only otherwise the handler runs and answers; the whole request is the stated run of the lease machine. |
| `Idempotent.RequestAndRepeat` | order-service/internal/handler/idempotency.go:76-112 | Two calls with anything in between until the key expires, contexts obeyed: after a first call that ran and stored an answer below 500, the second does not run and gets the same code and body, or 422 for another request. |
| `Breaker.TripsExactlyOnAFullStreak` | order-service/internal/breaker/breaker.go:107-127 | In any history a result reported while closed opens the breaker if and only if it completes a row of `threshold` failures since closing. |
| `Breaker.AsksAreAnswered` | order-service/internal/breaker/breaker.go:81-102 | In any history, an open breaker lets a call through if and only if `openFor` has passed since it last opened, a closed one always, a half-open one never. |
| `Breaker.ProbeDecides` | order-service/internal/breaker/breaker.go:104-134 | In any history, a result reported in HalfOpen closes the breaker with no failures counted if and only if it is a success and otherwise opens it at that time; one reported while open changes nothing. |
| `Breaker.ClosedUntilAStreak` | order-service/internal/breaker/breaker.go:107-118 | From a closed breaker with no failures counted it stays closed, and lets every call through, exactly until `threshold` failures in a row were reported, however calls and results interleave. |
| `Breaker.NewStaysClosedUntilAStreak` | order-service/internal/breaker/breaker.go:62-72 | A new breaker stays closed exactly until the threshold, at least one, of failures in a row were reported. |
| `Breaker.ReopensTheWay` | order-service/internal/breaker/breaker.go:81-134 | After a trip, a successful first probe at least `openFor` later lets every following call through until the next full row of failures. |
| `Breaker.HalfOpenAdmitsNobodyElse` | order-service/internal/breaker/breaker.go:81-102 | Probing holds exactly in HalfOpen, and each stay in HalfOpen admits only the call that began it. |
| `Breaker.ProbesAreSpaced` | order-service/internal/breaker/breaker.go:85-91 | On a clock that never goes back, any two successive probes are at least `openFor` apart. |
| `Breaker.FewCallsWhileNotClosed` | order-service/internal/breaker/breaker.go:81-102 | While it does not close, at most T / openFor + 1 calls get through within a time T. |
| `Breaker.Breaker.Allow` | order-service/internal/breaker/breaker.go:81-102 | The method changes the fields and answers as the history semantics says. |
| `Breaker.Breaker.Done` | order-service/internal/breaker/breaker.go:104-134 | Same for `Done`, with `trip`. |
| `Backoff.DelayIsCappedDoubling` | order-service/internal/worker/reconcile_worker.go:235-241 | On 64-bit words, for a base with enough factors of two, the shifted and capped delay is min(base * 2^(attempts-1), cap) for every number of attempts. |
| `Backoff.DelayIsTrueIff` | order-service/internal/worker/reconcile_worker.go:235-241 | With any base, cap and attempt: the delay is min(base * 2^(attempts-1), cap) if and only if the doubled value fits the word, or all its bits are gone, or what is left of it is not a positive number below the cap. |
| `Backoff.CheckDelay` | order-service/internal/worker/reconcile_worker.go:235-241 | So it is for 10 seconds and 5 minutes in nanoseconds. |
| `Backoff.RefundDelay` | order-service/internal/worker/refund_worker.go:191-194 | So it is for 2 seconds and 1 minute in nanoseconds. |
| `Backoff.WrappedDelayCanBeShort` | order-service/internal/worker/reconcile_worker.go:235-241 | With other options a wrapped value can be shorter than the doubled base and pass for a delay. |
| `Backoff.RelayBacksOff` | order-service/internal/worker/outbox_relay.go:65-117 | The n-th error in a row makes the relay pause the interval doubled n times, at most the cap; one doubling fewer after a full batch. |
| `StuckQueue.QueueIsLeft` | order-service/internal/worker/reconcile_worker.go:113-233 | In every run of the protocol from the start, with visits overlapping, leases taken over, crashes, lost replies and any failed write but the manual mark: a payment still queued has had at most so many completed visits, the maximum of attempts left and time left to expiry over the shortest pause. |
| `StuckQueue.StayingIsEarly` | order-service/internal/worker/reconcile_worker.go:162-233 | In every run, a completed visit that leaves a payment queued was short of the attempt limit or came too early to expire it. |
| `StuckQueue.ShippedQueueIsLeft` | order-service/internal/worker/reconcile_worker.go:70-81 | As shipped, with every pause the one the worker computes on 64-bit words: in every run at most 78 completed visits leave a payment in the queue. |
| `RefundQueue.QueueIsLeft` | order-service/internal/worker/refund_worker.go:89-201 | In every run of the protocol from the start, with visits overlapping, crashes, lost replies and failing records: a refund row still pending whose payment is not refunded has had fewer completed visits than the attempt limit. |
| `RefundQueue.WaitsForeverIff` | order-service/internal/worker/refund_worker.go:125-190 | From any moment of any run, as long as the job makes no fix: a pending refund row can go on pending through any number of completed visits if and only if its payment is refunded already, because the record of success then fails every time and only a refusal checks the limit. |
| `RefundQueue.OrphansAreTheJobs` | order-service/internal/reconciliation/job.go:193-203 | A pending refund row gets a refunded payment only by the first statement of the job's refund fix. |
| `Witnesses.OrphanedRefundHappens` | order-service/internal/reconciliation/job.go:193-203 | A run in which the refund worker dies before recording and the job dies between the two statements of its fix, which leaves the row pending with its payment refunded. |
| `PageWalk.GetOrders` | order-service/internal/repository/order.go:149-217 | One page: the highest ids below the cursor in descending order, complete up to the limit, each with exactly its items in id order; a further cursor exactly if the page is full. |
| `PageWalk.ListOrders` | order-service/internal/service/order_service.go:127-135 | The same with the limit clamped. |
| `PageWalk.WalkDescends` | order-service/internal/repository/order.go:211-216 | Over a whole walk ids are strictly descending, below the start, and the cursor is the last id shown. |
| `PageWalk.WalkShowsEachOrderOnce` | order-service/internal/repository/order.go:149-217 | A finished walk shows every order that existed throughout exactly once with exactly its items, whatever was inserted or deleted between any two statements. |
| `PageWalk.WalkEnds` | order-service/internal/repository/order.go:211-216 | A walk is finite: the number of answers that carry a further cursor, times the limit, is at most the first id shown, and below the start cursor. |

## Left out

- HTTP routing, DTOs, middleware, health checks, logging, metrics, configuration, wiring and migrations embedding: no deep property.
- The product cache: its comments admit a stale window, and the rest is library behaviour.
- Users, product handlers, load tests, deployment files and scripts.
- `JobLease.TryClaim`, `retry.Do`, `OutboxRelay.updateLagMetric`: small facts that would only add easy members.
- Payments without a key inside protocol runs: the payment handler rejects an empty key (`order-service/internal/handler/idempotency.go:40-44`), so the machine's `Pay` step has one; the transactions themselves accept keyless payments, and the worker's branch for them is modelled.
- Row ids of orders, payments and refunds are positions in their tables, in commit order: gaps left by rolled-back inserts are not modelled. Outbox ids are arbitrary and may commit out of order.
- Keys "refund-<id>" and ids "ch_<id>" are the numbers in them; amounts are integer cents; time is one natural number, and NOW() is the time of the statement, not of the transaction's start.
- Request hashing is an opaque fingerprint; error texts, reasons and notes are dropped, and so are the job's own run and item rows, whose failure would end a run early.
- The leasing UPDATE of a worker is one statement; here it is an uninterrupted series of leases of single rows.
- Inside the methods of `PayService`, `Workers`, `JobRun`, `Relay` and `Idempotent` the caller does not die; dying at any statement is a step of the machines. Failing statements, and in `PayService`, `JobRun` and `Idempotent` transactions that commit without being heard of, are choices of the methods' environment; in `Workers` a commit that is not heard of is a choice of the machine's step only.
- JobRun.Run: with others at work, what the run leaves in the tables is stated by the protocol's own steps; the closed form is for a run by itself. The list is one call, told as one step for every entry.
- StuckQueue.QueueIsLeft: a visit whose write of the manual mark fails, or that dies, is not counted as completed; every other write may fail.
- RefundQueue.QueueIsLeft: a visit that dies, or whose record of a success or of manual review fails, is not counted as completed.
- Deadlock.DeadlockNeedsInversion: covers create, cancel, `start` and `Transition`; `markSucceeded` is one atomic transaction here and takes no part in waiting.
- LockRefinement.LocksSerialize: serializes those four and the workers' single-statement updates of payments; prices are never changed by them, as in the code.
- IdempotencyLease.ExecutionsNeverOverlap: a grant ends with the lease or with the key's time to live, whichever comes first, because of the runs above.
- IdempotencyLease.GrantsAreApart: does not say that the owner itself gave the key back, which is false of the code; the two conditions above say when it holds.
- The branch of `Claim` for a row deleted between its two statements: nothing deletes such rows.
- A message that the consumer cannot decode, and the order in which a consumer commits offsets: any redelivery is allowed, and no delivery is claimed, since the consumer goes on after an inbox error.
- `processWithInbox` waiting for a rival's uncommitted inbox row: the machine blocks such a step, the method starts once it is free.
- Breaker callbacks on a change of state, and a clock that goes back.
- Order states shipped and delivered beyond the transition table: no code sets them.
- PostgreSQL, Redis and Kafka internals: row locks, unique indexes, skipped locked rows, atomic statements and per-message verdicts are taken as given. A foreign key's lock on the payment row, and the wait of an INSERT for a rewritten index entry, are modelled.
