# Expense bot: a verified model

The bot is a small distributed system over one PostgreSQL database. Webhook handlers, queue workers, the outbox sender,
the retention sweep and the summary runner share tables, run concurrently and can stop at any point. This project models
that system and proves what its documentation and comments promise about it.

Each protocol has two parts.

- A machine (`Queue`, `SenderRuns`, `LedgerRuns`, `Intake`, `AccountRuns`, `SummaryRuns`, `WebhookRuns`, with
  `DailyLimit` on top of the last). The state is
  maps for tables plus one program point per lane. A step is one SQL statement, one transaction block or one foreign call.
  Lanes interleave freely, and a crash or an abandoned lease may fall between any two steps. The theorems quantify over
  every run of any length. No user lock is assumed unless the theorem or its machine says so; where the lock is needed, a
  concrete run shows what happens without it.
- The code as it runs (`Sender`, `Chat`, `Processor`, `Account`, `Summaries`, `Webhook`, and the class in `Queue`):
  classes whose fields are the tables, with one method per store call and handler. Handlers of `Sender`, `Chat`,
  `Summaries` and `Webhook` return a ghost trace, and their contracts say that the trace is a run of the machine that ends
  in the tables they leave, so the theorems about runs are theorems about these handlers.

Around the protocols are the pure cores: `Calendar`, `Periods` and `Schedule` for delivery instants and periods, `Text`,
`Amount`, `Readings` and `Money` for amounts, `Dates` for dates, `Merchant` for merchant keys, and `Insight` for aggregates.

Identifiers, texts, currencies and idempotency keys are numbers where only their identity matters. UUIDs and claim tokens
are fresh. Random choices, clock readings, provider and extractor outcomes and store faults are parameters of steps or
methods. A statement that fails has no effect.

## Findings

Some promises hold only under a condition. In each case the code is modelled as it is, a lemma gives a concrete failing
input or run, and another says when the promise does hold.

- `attempts <= max_attempts` is not an invariant: an expired lease is reclaimed without a look at the limit
  (`Queue.AttemptsUnbounded`). A claim ends above the limit exactly when it reclaims such a lease of a job that has used its
  attempts up (`Queue.AttemptsExceedLimit`). What is bounded is the number of requeues.
- `sent` is final under the user lock (`SenderRuns.SettledIsFinal`) and not without it
  (`SenderRuns.SentNotFinalWithoutLock`). At most one provider call per key needs no lock.
- A receipt job can be acknowledged with work left (`Processor.ConflictsAreDropped`), for exactly three inputs
  (`Processor.AcknowledgedIffDone`): its receipt is still `received`, the download fails with the conflict code, or a
  drafting call before the final transaction does. None of them arises here. A job is queued only after its receipt left
  `received` (`WebhookRuns.JobsNameStartedReceipts`), and no callee of `loadImageBytes`
  (internal/receipt/processor.go:191-211) and no drafting call before `FinalizeReceiptReview`
  (internal/receipt/processor.go:440-510) returns `CodeConflict`.
- The daily receipt limit holds if handlers are serialised by the user lock and none stops while the receipt it created is
  not yet charged, about to be removed after a failed charge, or about to be refused
  (`DailyLimit.ImagesWithinDailyLimit`). A crash or a failed statement at any of these points lets one more image through
  (`DailyLimit.StopBreaksLimit`), because the next delivery did not create the receipt and does not look at the limit; the
  handler even drops the error of the removal (internal/bot/commands.go:61). So does a handler without the lock
  (`DailyLimit.NoLockBreaksLimit`).
- Periods reported by concurrent runners need not increase: a runner that read the clock earlier can enqueue an older
  period after a newer one (`SummaryRuns.StaleRunnerReportsLate`). They increase exactly when the clock readings do
  (`SummaryRuns.EnqueuedInOrder`), in particular with one runner at a time, and won advances always increase.
- The comment on multipliers says that a separator is a decimal point if fewer than three digits follow. The code tests for
  any number other than three; the two part exactly from four digits on (`Readings.CommentFailsFromFourDigits`), as
  1.2345tr shows (`Readings.CommentIsWrong`). Four digits are read as a fraction, more are refused
  (`Readings.Fractions`).
- The overflow guard of the multiplier path tests the product before the division, so it also rejects amounts that would
  fit (`Readings.FittingAmountRejected`); it rejects exactly when that product exceeds 64 bits (`Amount.AmountsAreExact`).
- Printed dollar amounts read back a hundredfold (`Money.DollarsReadHundredfold`), so as themselves only for zero; printed
  VND amounts read back as themselves exactly below 10^15 (`Money.VndRoundTrip`).
- The comment on printed amounts shows 1234 AUD as A$12.34; the code prints 12,34 A$ (`Money.SignAndSymbol`). A lower-case
  a$ is taken for US dollars (`Readings.PricedIn`).
- A printed date reads back as its day exactly for the years 100 to 9999 (`Dates.PrintedDatesReadBack`).
- The number of days without an expense can be negative (`Insight.OffMidnightCanBeNegative`). It is right exactly when the
  period is walked in as many days as it touches (`Insight.NoSpendDaysExactWhen`), which every period of the bot is
  (`Insight.PeriodsLieBetweenMidnights`).

## Model

| member | source | states |
|---|---|---|
| Domain.ReceiptMoves | internal/domain/state.go:11-26 | for every status from which statuses a receipt may enter it, and what ended for the worker never comes back |
| Domain.TxMoves | internal/domain/state.go:43-49 | for every status from which statuses a transaction may enter it |
| Queue.PgQueue.Enqueue | internal/platform/queue/queue.go:52-69 | a dedupe key already present is reported and changes nothing; otherwise one queued row is added, due at once, with the given attempt limit or five |
| Queue.PgQueue.Dequeue | internal/platform/queue/queue.go:74-114 | claims the oldest row that no other claimer has locked among queued rows that are due and running rows whose lease has ended, for a new lease; nothing is claimed only if every other row is not yet due or still leased |
| Queue.PgQueue.Heartbeat | internal/platform/queue/queue.go:117-130 | moves the end of the lease to now plus the visibility, only for the holder of the current claim token |
| Queue.PgQueue.Ack | internal/platform/queue/queue.go:132-145 | settles the row as done only for the holder of the current claim token |
| Queue.PgQueue.Nack | internal/platform/queue/queue.go:149-181 | only for the holder of the current claim token: back to the queue after the backoff while attempts are left, and dead otherwise |
| Queue.BackoffDoubles | internal/platform/queue/queue.go:147-168 | the backoff is one second without an attempt and doubles with each up to 300 seconds |
| Queue.PgQueue.Settle | internal/worker/worker.go:82-113 | the worker requeues or buries on transient errors only and acknowledges everything else |
| Queue.Fencing | internal/platform/queue/queue.go:74-181 | over every interleaving: running iff a token is held, attempts equal claims granted, fewer requeues than the limit, each token settles once |
| Queue.LeasesHold | internal/platform/queue/queue.go:71-181 | over every interleaving, of two successive events of a job: a claim comes no earlier than the end of the lease, as granted or last prolonged, or of the backoff before it; only the last claimer prolongs or settles; nothing follows an acknowledgement or a burial |
| Queue.TerminalForever | internal/platform/queue/queue.go:84-93 | a row that is done or dead after any run never changes over any continuation |
| Queue.AttemptsExceedLimit | internal/platform/queue/queue.go:74-114 | in every run a claim ends above the limit iff it reclaims an expired lease of a job with no attempts left; a waiting job always has attempts left |
| Queue.AttemptsUnbounded | internal/platform/queue/queue.go:87-89 | for every n there is a run in which a job with limit one is claimed n + 1 times |
| Sender.OutboxDb.EnqueueOutbound | internal/store/outbound.go:36-52 | inserts a row iff no row has the key |
| Sender.OutboxDb.BeginOutboundAttempt | internal/store/outbound.go:84-164 | reserves a call iff the row waits and the month has quota left; past the limit the row is suppressed and nothing is charged; a missing row is not found |
| Sender.OutboxDb.CompleteOutboundSend | internal/store/outbound.go:170-205 | charges one success and closes the row iff it is still sending, and otherwise reports a conflict and changes nothing |
| Sender.OutboxDb.MarkOutboundStatus | internal/store/outbound.go:208-220 | overwrites the status without a guard; a missing row is not found |
| Sender.OutboxDb.PurgeOutboundAndJob | internal/store/outbound.go:224-234 | removes the row and its job together |
| Sender.OutboxDb.Reply | internal/notify/notify.go:50-88 | afterwards exactly one row has the key, no other row changed, and a job names the row if it still waits, also when an earlier call stopped half way |
| Sender.OutboxDb.HandleLocked | internal/notify/notify.go:126-202 | the provider is called iff the row waits, its owner may be served, sending is on and quota is left; after a call the row is sent, ambiguous or failed as the call was delivered, uncertain or refused, and an ephemeral row is gone with its job; whatever happens is a run of the interleaving model |
| Sender.WaitingOutcome | internal/notify/notify.go:145-202 | what becomes of a waiting row, its job and both counters, for every owner, switch, quota and answer |
| Sender.StaleOutcome | internal/notify/notify.go:126-144 | what becomes of a missing, interrupted or settled row |
| Sender.OutboxDb.HandleStale | internal/notify/notify.go:126-144 | a job without a row is dropped, a row left in sending becomes ambiguous or, if ephemeral, goes, and a settled row stays |
| Sender.HandledIsSettled | internal/notify/notify.go:126-202 | after its job a row is gone or sent, ambiguous, failed or suppressed, and no other row changed |
| Sender.HandlingIsIdempotent | internal/notify/notify.go:126-202 | handling the same job again changes nothing, whatever provider, switch, month and limit are then |
| Sender.OutboxDb.Attempt | internal/notify/notify.go:171-202 | a call is made iff the reservation succeeded, exactly once, and its answer is recorded |
| SenderRuns.SendAtMostOnce | internal/notify/notify.go:50-202 | over every interleaving with crashes and reclaims, at most one provider call per row ever, and per idempotency key among rows not purged |
| SenderRuns.QuotaSafety | internal/store/outbound.go:106-205 | successes charged once per row, at most the calls, at most the attempts of the month, at most the limit |
| SenderRuns.StatusTellsAnswer | internal/notify/notify.go:182-202 | over every run, with or without the lock, a row is sent only if its one call was delivered and failed only if its one call was refused |
| SenderRuns.AnswerIsShown | internal/notify/notify.go:182-202 | over every run under the user lock, a row whose call was recorded is sent, ambiguous or failed as the call was delivered, uncertain or refused |
| SenderRuns.LockStep | internal/notify/notify.go:116-202 | with the user lock a row moves only queued to sending or suppressed and sending to sent, ambiguous or failed |
| SenderRuns.SettledIsFinal | internal/store/outbound.go:208-212 | over every run under the user lock, what is sent, ambiguous, failed or suppressed after a prefix stays so over every continuation |
| SenderRuns.SentNotFinalWithoutLock | internal/store/outbound.go:208-212 | a run without the lock in which a sent row becomes ambiguous |
| Chat.LedgerDb.TransitionReceipt | internal/store/receipts.go:121-139 | moves a receipt iff the move is in the table and the row is still in the expected status |
| Chat.LedgerDb.FinalizeReceiptReview | internal/store/transactions.go:90-239 | iff the receipt is still extracting, a draft of its owner with the extracted facts and category awaits confirmation, the slot names it and the receipt is under review, all together; otherwise nothing changes |
| Chat.LedgerDb.CreateManualDraft | internal/store/transactions.go:253-321 | a typed entry becomes a draft with its facts that awaits confirmation; the same message again only points the slot at its draft; a run of the ledger machine |
| Chat.LedgerDb.UpdateTransaction | internal/store/transactions.go:425-447 | writes iff the version is the expected one and the row is not deleted |
| Chat.LedgerDb.SoftDeleteTransaction | internal/store/transactions.go:451-472 | deletes the owner's transaction iff its status may move to deleted |
| Chat.LedgerDb.ConfirmTx | internal/bot/text.go:282-323 | confirms exactly the awaiting draft, with the facts shown, moves its receipt, clears the slot, and is a run of the ledger machine |
| Chat.LedgerDb.ResolveEdit | internal/bot/text.go:153-237 | changes the field the slot asked for, and no other, of an awaiting draft and reopens its card; a stale slot is cleared, an unreadable reply changes nothing, a deleted draft is a conflict |
| Chat.LedgerDb.DiscardTx | internal/bot/text.go:326-346 | deletes exactly the named active transaction of the user and its receipt under review, and clears the slot unless a racing deletion won |
| Chat.LedgerDb.LatestConfirmedTransaction | internal/store/transactions.go:516-529 | the recorded transaction of the user that occurred last, among several the one created last, and none only if there is none |
| Chat.LedgerDb.Recategorise | internal/bot/commands.go:448-480 | changes only the category of the last recorded transaction and marks it amended; without one, or without a known category, nothing changes |
| LedgerRuns.OneDraftPerReceipt | internal/store/transactions.go:90-239 | in every reachable state a receipt before review has no transaction and no receipt has two |
| LedgerRuns.FinalizeNeverOverwrites | internal/store/transactions.go:99-239 | however many lanes finish a receipt, a finalisation that finds a transaction commits nothing |
| LedgerRuns.TransactionsMoveLegally | internal/domain/state.go:43-49 | every statement moves transactions along the table, raises the version by one, and changes recorded facts only while awaiting |
| LedgerRuns.ConfirmedOnlyByUser | internal/bot/text.go:113-148 | a transaction becomes confirmed only by the write of a handler sent an explicit confirmation for a slot that names it |
| LedgerRuns.FactsFrozen | internal/store/transactions.go:425-472 | what is confirmed after any run keeps amount, currency, merchant, type and date over every continuation |
| LedgerRuns.FactsAsDrafted | internal/store/transactions.go:90-321 | over every run a transaction, and so its confirmation, records what its extraction or typed entry said with the corrections written since |
| LedgerRuns.VersionsGrow | internal/store/transactions.go:425-447 | versions never decrease from any reachable state over any continuation |
| LedgerRuns.StepKeeps | internal/bot/text.go:113-346 | one step of any chat handler, worker, sweep or deletion keeps the ledger invariant |
| Processor.ReceiptJob.Handle | internal/receipt/processor.go:69-126 | under any interference and any transient faults the job ends in nil or a transient error, and in nil only if the receipt is terminal or gone or its owner deleted or missing, two exceptions stated; undisturbed, outcome, receipt, hash and page counter are exactly those of `Undisturbed` |
| Processor.ReceiptJob.Prepare | internal/receipt/processor.go:135-189 | phase one: what is skipped is settled; undisturbed, exactly the workable receipts go on, claimed from any earlier status |
| Processor.ReceiptJob.Arm | internal/receipt/processor.go:213-284 | phase two: nil without extraction only if settled, armed only within the page limit; undisturbed, the exact receipt and counter |
| Processor.ReceiptJob.Keep | internal/receipt/processor.go:235-264 | stores key and hash on the first pass only and moves the receipt to extracting, or the receipt has moved on |
| Processor.ReceiptJob.FindReceiptByHash | internal/store/receipts.go:161-174 | the newest receipt of the owner, not deleted, that carries the hash, and none only if there is none |
| Processor.ReceiptJob.Finish | internal/receipt/processor.go:286-338 | phase three: nil only if settled or a drafting conflict was taken as done; undisturbed, a draft reaches review and a failure its final or retryable status |
| Processor.ReceiptJob.FailWith | internal/receipt/processor.go:545-565 | nil only once the receipt is terminal; any other error is transient or comes after the receipt is terminal |
| Processor.ReceiptJob.Fail | internal/receipt/processor.go:531-541 | transient causes leave a retryable receipt and a transient error, all others a permanently failed receipt and nil |
| Processor.ReceiptJob.AckPolicy | internal/receipt/processor.go:590-599 | only nil and transient errors leave, and an error becomes nil only for a terminal receipt |
| Processor.AcknowledgedIffDone | internal/receipt/processor.go:60-126 | for every input the undisturbed job ends in nil or a transient error, is acknowledged with work left iff the receipt was never queued or a conflict code is dropped, and is never retried with nothing left to do |
| Processor.FailureByCause | internal/receipt/processor.go:531-541 | a failed download, extraction or drafting is retried iff its cause is transient, and otherwise the receipt fails for good and the job is acknowledged |
| Processor.ArmedOutcome | internal/receipt/processor.go:213-284 | what duplicate, kill switch and page quota make of the receipt, its hash and the counter |
| Processor.JobOutcome | internal/receipt/processor.go:69-126 | from which status a job works, what it leaves unchanged, and that a draft reaches review |
| Processor.ConflictsAreDropped | internal/receipt/processor.go:603-610 | the three inputs on which a job is acknowledged with its receipt in flight |
| Processor.ArmIsIntakeRun | internal/receipt/processor.go:213-284 | an undisturbed phase two is a run of the intake machine that ends with the right to one extraction iff the receipt is extracting |
| Processor.ReachableIsClear | internal/receipt/processor.go:225-264 | in every reachable state at most one of this receipt and the others answers to a hash, as the results on phase two ask |
| Processor.RetryReachesReview | internal/receipt/processor.go:60-64 | after any retryable attempt an undisturbed retry with a readable image and quota left reaches review, for one more page |
| Intake.OneReceiptPerImage | internal/receipt/processor.go:227-243 | over every lock-serialised run with resumes, deletions and sweeps, at most one receipt that is not deleted per user carries a content hash |
| Intake.DuplicateWithoutLock | internal/store/receipts.go:143-174 | without the lock two lanes can store the same image |
| Intake.ExtractionsWithinLimit | internal/receipt/processor.go:266-283 | for any number of lanes the extraction calls charged to a month never exceed the limit, and a charge pays for one call |
| AccountRuns.NothingComesBack | internal/store/account.go:71-199 | after a committed purge no later step of any actor leaves a row of the user in any table, queue jobs included, other than the ephemeral confirmation and its job |
| AccountRuns.DeletedForever | internal/store/account.go:188-194 | a deleted user stays deleted over any run |
| AccountRuns.RowsReturnWithoutLock | internal/account/delete.go:44-52 | a run in which a deleter ignores the lock and a row returns after the purge |
| Account.AccountDb.BeginAccountDeletion | internal/store/account.go:25-67 | marks the user and returns exactly the stored keys; deleted and missing users are refused |
| Account.AccountDb.PurgeAccountData | internal/store/account.go:71-199 | all rows of the user, and messages whose payload names the user, go in one transaction except the triggering message, which is made anonymous; the counters add up to the rows that were there; a foreign trigger rolls everything back |
| Account.AccountDb.DeleteAccount | internal/account/delete.go:44-86 | finishes iff the user exists, no object deletion is refused, the exports can be removed and the trigger is the user's; otherwise all rows stay and the call resumes |
| Account.PurgeOrderComplete | internal/store/account.go:92-190 | the purge order lists every table exactly once |
| Calendar.YearLength | internal/insight/periods.go:17-20 | the closed form for the first day of a year agrees with twelve month lengths and the leap rule |
| Calendar.CivilDate | internal/insight/periods.go:17-20 | every day has a valid date that numbers back to the day |
| Calendar.DateRoundTrip | internal/extraction/normalise/normalise.go:298-302 | valid dates and days correspond one to one |
| Calendar.Epoch | internal/extraction/normalise/normalise.go:298 | day 0 is 1 January 1970 |
| Calendar.Tomorrow | internal/extraction/normalise/normalise.go:298-302 | the date after a date by month lengths and leap rule, which with the epoch fixes the number of every date |
| Calendar.ClockAndWeek | internal/summaryschedule/schedule.go:23-34 | day 0 is a Thursday, weekdays take turns, days have 86400 seconds, and local midnight comes earlier by the offset |
| Calendar.InvalidDateMoves | internal/extraction/normalise/normalise.go:298-302 | normalising a date returns the same date iff it is a calendar date |
| Calendar.AddMonths | internal/summaryschedule/schedule.go:37-40 | from the first of a month adding months lands on the first of the target month |
| Periods.PeriodsMeet | internal/insight/periods.go:36-84 | the current day, week and month contain now, end together at the next local midnight, and meet the completed ones at an edge |
| Periods.PeriodsStart | internal/insight/periods.go:16-84 | every period starts at midnight of its day, of a Monday or of the first of its month |
| Periods.CompletedDay | internal/insight/periods.go:42-46 | an instant is in yesterday iff yesterday is its day |
| Periods.CompletedWeek | internal/insight/periods.go:67-70 | an instant is in last week iff last week is its week |
| Periods.CompletedMonth | internal/insight/periods.go:81-84 | an instant is in last month iff last month is its month |
| Schedule.DeliveriesBracketNow | internal/summaryschedule/schedule.go:14-83 | latest <= now < next, both scheduled, no scheduled instant strictly between, and an error iff frequency or minute is unsupported |
| Schedule.ReportedPeriodsAdjoin | internal/summaryschedule/runner.go:109-121 | the periods reported at the two deliveries end at midnight of the delivery day, are completed, adjacent and do not overlap |
| Schedule.LatestMonotone | internal/summaryschedule/schedule.go:51-83 | deliveries grow with the clock, and the latest one moves exactly when a delivery fell due in between |
| Schedule.ReportedInOrder | internal/summaryschedule/runner.go:109-121 | a later delivery reports a later, disjoint period |
| SummaryRuns.OneSummaryPerPeriod | internal/summaryschedule/runner.go:64-138 | any number of runners enqueue at most one summary for any part of a user's time at a frequency |
| SummaryRuns.WonPeriodsIncrease | internal/store/schedules.go:130-140 | the periods of won advances strictly increase, and each was enqueued |
| SummaryRuns.WonAdvanceMovesOn | internal/store/schedules.go:130-140 | a won advance moves the due instant strictly past the runner's clock reading, with the summary already enqueued |
| SummaryRuns.EnqueuedInOrder | internal/summaryschedule/runner.go:64-138 | enqueued periods are in order iff the clock readings behind them are |
| SummaryRuns.SerialRunnersReportInOrder | internal/summaryschedule/runner.go:37-61 | with one runner at a time enqueued periods strictly increase |
| SummaryRuns.StaleRunnerReportsLate | internal/summaryschedule/runner.go:64-89 | a run in which an overtaken runner enqueues an older period after a newer one |
| Summaries.SummaryDb.ListDueSummarySchedules | internal/store/schedules.go:95-126 | the due schedules of active users, earliest first and by ID among equals, without repetition, at most the limit or a hundred without one |
| Summaries.SummaryDb.AdvanceSummarySchedule | internal/store/schedules.go:130-140 | takes effect iff the schedule is enabled and still due when it was listed |
| Summaries.SummaryDb.ProcessLocked | internal/summaryschedule/runner.go:91-138 | unless skipped or failed, the summary of the latest completed period is in the outbox, and the schedule moved on if it is still there as listed; the outcome for every case |
| Summaries.SummaryDb.RunOnce | internal/summaryschedule/runner.go:64-83 | every listed schedule without a fault is reported and advanced, whatever happens to the others; nothing else changes, and their number is returned |
| Amount.ParseAmount | internal/extraction/normalise/normalise.go:54-168 | the parser in 64-bit arithmetic, with no intermediate overflow, computes the exact specification |
| Amount.FinishAmount | internal/extraction/normalise/normalise.go:172-196 | digits without a point: scaled by places and factor, rejected iff empty, too long or past 64 bits |
| Amount.FinishDecimal | internal/extraction/normalise/normalise.go:115-167 | digits with a point: the exact quotient, rejected iff too long, not whole or past 64 bits |
| Amount.Guard | internal/extraction/normalise/normalise.go:141-143 | the overflow guard holds iff the true product exceeds the integer range |
| Amount.AmountsAreExact | internal/extraction/normalise/normalise.go:115-196 | a success is the exact decimal value times factor in minor units within range, and the exact conditions for success |
| Readings.ParseIsExact | internal/extraction/normalise/normalise.go:54-196 | an accepted text is read with all its digits in order, split at its decimal point, and with the multiplier it ends with, and the result is the exact value of that reading |
| Readings.ParseAccepts | internal/extraction/normalise/normalise.go:54-196 | a text is accepted iff it has no sign, nothing but digits, separators and spaces beside currency and multiplier, 1 to 15 digits with at most 4 after the point, and a whole number of minor units whose product fits in 64 bits |
| Readings.SeparatorRule | internal/extraction/normalise/normalise.go:90-113 | for every body, places and factor, whether its last separator is the decimal point |
| Readings.PricedIn | internal/extraction/normalise/normalise.go:206-239 | each of the 18 names of a currency, with or without a space, is taken off and decides the currency, whatever the hint |
| Readings.NothingFound | internal/extraction/normalise/normalise.go:223-228 | without a currency in the text the hint decides, and without a hint it is VND |
| Readings.Multiples | internal/extraction/normalise/normalise.go:66-75 | an amount before k, tr or triệu, in either case, is read as thousands or millions of dong |
| Readings.SpacesGo | internal/extraction/normalise/normalise.go:77-88 | a space inside an amount makes no difference, and nothing else is taken out |
| Readings.ReadingIsUnique | internal/extraction/normalise/normalise.go:64-116 | a text has one reading, so the exact value leaves no other result |
| Readings.MultiplierIs | internal/extraction/normalise/normalise.go:66-75 | the multiplier is the one the text ends with, in either case |
| Readings.TokensKeep | internal/extraction/normalise/normalise.go:228-238 | removing the currency tokens loses no digit of the text |
| Readings.MultiplierKeeps | internal/extraction/normalise/normalise.go:66-75 | the bytes cut for a multiplier are never those of a digit, whatever letters matched it |
| Readings.CommentFailsFromFourDigits | internal/extraction/normalise/normalise.go:97-109 | code and comment on the decimal point part iff four or more digits follow the last separator |
| Readings.CommentIsWrong | internal/extraction/normalise/normalise.go:97-109 | 1.2345tr is read as 1234500 dong |
| Readings.Fractions | internal/extraction/normalise/normalise.go:97-151 | what the parser returns for every amount in millions with one separator, whatever number of digits follow it |
| Amount.NoDigitLost | internal/extraction/normalise/normalise.go:95-116 | splitting at the point neither drops nor moves a digit |
| Readings.FittingAmountRejected | internal/extraction/normalise/normalise.go:141-149 | the text 99999999999.9999tr is refused though its value is within range |
| Money.FormatMinor | internal/domain/money.go:25-64 | sign, grouped whole part, two decimals where the currency has them, and symbol, for every 64-bit integer, the smallest included |
| Money.SignAndSymbol | internal/domain/money.go:25-64 | a negative amount is the positive one after a sign; then a space and the symbol, or the code of a currency without one; only VND, JPY and KRW have no decimals |
| Money.GroupsOfThree | internal/domain/money.go:45-53 | counted from the right, every fourth character of the whole part is a dot and no other |
| Money.VndRoundTrip | internal/domain/money.go:25-64 | a printed VND amount reads back as itself iff it is below 10^15, with any hint |
| Money.DollarsReadHundredfold | internal/extraction/normalise/normalise.go:97-113 | printed USD and AUD amounts read back a hundredfold below 10^15 and are refused beyond |
| Money.NegativesAreRefused | internal/extraction/normalise/normalise.go:59-61 | no printed negative amount is accepted |
| Dates.AcceptsExactlyCalendarDates | internal/extraction/normalise/normalise.go:254-304 | a text is accepted iff it spells a calendar date in an accepted shape, alone or with a time of day, and the result is that local time |
| Dates.TwoParts | internal/extraction/normalise/normalise.go:258-263 | date and time may stand with a space or a comma and a space between them |
| Dates.PrintedForm | internal/conversation/templates.go:36-41 | two digits of day, two of month and four of year, with slashes |
| Dates.PrintedDatesReadBack | internal/conversation/templates.go:36-41 | a printed date reads back as its local midnight iff the local year is 100 to 9999, and what happens to every other year |
| Merchant.NormaliseMerchant | internal/extraction/normalise/normalise.go:346-379 | the nested loops end on every input and compute the key |
| Merchant.LetterByLetter | internal/extraction/normalise/normalise.go:349-360 | letters and digits stay, capitals are lowered, a dot goes, any other ASCII character is a space, and the rest is folded |
| Merchant.FoldByCodePoint | internal/extraction/normalise/normalise.go:317-335 | the folding table by code point |
| Merchant.KeysAreNormal | internal/extraction/normalise/normalise.go:339-379 | a key is single-spaced words of letters and digits with none of the six legal forms at either end |
| Merchant.KeyIsFixedPoint | internal/extraction/normalise/normalise.go:339-379 | normalising a key returns it |
| Merchant.OnlyFormsAreLost | internal/extraction/normalise/normalise.go:364-377 | between the cleaned name and the key nothing but the six legal forms at the ends is lost |
| Insight.SelectIsExact | internal/store/insights.go:10-14 | selected is, as often as it occurs, what the user confirmed or amended, did not delete, and dated in the half-open period |
| Insight.OneMore | internal/store/insights.go:44-142 | what one more transaction adds to the totals and numbers of its kind, its category or "other", and its merchant, per currency |
| Insight.GroupBy | internal/store/insights.go:44-142 | the grouped aggregate as a fold over the selected transactions |
| Insight.GroupsAreExact | internal/store/insights.go:44-142 | one row per group that occurs, with the plain sum and number of its transactions |
| Insight.BreakdownsSumToTotal | internal/insight/insight.go:139-158 | category and merchant rows sum, per currency, to the expense total, and their counts to the number of expenses |
| Insight.AdjacentPeriodsAdd | internal/store/insights.go:10-14 | every aggregate over adjacent periods adds up to the aggregate over their union |
| Insight.LocalDays | internal/insight/insight.go:191-198 | the loop counts the days that start in the period |
| Insight.CountExpenseDays | internal/store/insights.go:182-194 | the number of distinct local days with an expense |
| Insight.NoSpendDaysExactWhen | internal/insight/insight.go:169-198 | for any period the reported number is the number of local days without an expense iff the period is walked in as many days as it touches |
| Insight.NoSpendDaysAreExact | internal/insight/insight.go:169-198 | between local midnights it is, and it is never negative |
| Insight.OrderedIsSorted | internal/store/insights.go:78-90 | breakdown rows come by currency, falling amount and label, and none is lost or changed |
| Insight.LargestIsLargest | internal/store/insights.go:153-162 | one expense per currency that has one, in order; none of its currency is larger, and among equals it is the earliest, then the one with the smallest ID |
| Insight.Breakdown | internal/insight/insight.go:139-158 | the breakdown as shown is sorted and still adds up to the expense total and number |
| Insight.PeriodsLieBetweenMidnights | internal/insight/periods.go:36-84 | all six periods start and end at local midnights |
| Insight.OffMidnightCanBeNegative | internal/insight/insight.go:191-198 | a period off midnight with a negative number of days |
| Insight.EveryTxCounted | internal/insight/insight.go:128-137 | the counts of the type groups add up to the number of selected transactions |
| Insight.Summarise | internal/insight/insight.go:107-175 | refused iff the period is empty; otherwise exact totals for exactly the currencies that occur, sorted breakdowns that add up to them, count, largest expenses and days |
| WebhookRuns.OnePipelinePerImage | internal/bot/commands.go:40-104 | for any deliveries, failures, reclaims and crashes: at most one receipt, one job, one acknowledgement and one usage charge per image |
| WebhookRuns.JobsNameStartedReceipts | internal/bot/commands.go:74-103 | a job exists only for the receipt of its message, after the receipt left received |
| WebhookRuns.DurableIds | internal/store/messages.go:35-128 | the durable ID of a message never changes and is not shared |
| DailyLimit.ImagesWithinDailyLimit | internal/bot/commands.go:56-72 | over every run with handlers serialised by the user lock and no stop while a receipt is owed, each message with a job was charged and at most the limit to any user and day |
| DailyLimit.StopBreaksLimit | internal/bot/commands.go:56-72 | at each of the four points, by crash or by failed statement, a run out of order in nothing else that exceeds the limit |
| DailyLimit.NoLockBreaksLimit | internal/bot/bot.go:144-146 | the same for a handler that ignores the user lock |
| Webhook.ImageDb.ClaimProviderMessage | internal/store/messages.go:35-128 | claimed iff new, or of the same payload and failed or abandoned for longer than the lease, always under the first ID; the outcome for every other case |
| Webhook.ImageDb.Register | internal/store/receipts.go:58-92 | the message has one receipt afterwards, created iff there was none; a receipt of another user is a conflict |
| Webhook.ImageDb.HandleImage | internal/bot/commands.go:40-104 | whichever statements and replies fail, nil means that the receipt left received and has job and acknowledgement if it waits; receipts and usage for every case, only the creator is charged, a failed charge leaves no receipt, and a failed reply leaves a refused one refused; the pass is a run of the machine |

## Left out

- Provider, extractor and object-store clients, JSON shapes, HTTP servers and URL checks: foreign calls are outcomes.
- SQL, pools and advisory locks: a statement is atomic and the user lock is mutual exclusion, without reentrance.
- Zones with daylight saving time: a zone is a fixed offset.
- Templates, help texts, command phrase tables, configuration, logging, the playground and the simulation programs.
- Liveness: nothing says that a job is eventually handled, and nothing says that a review card is always delivered.
- Stored objects and provider messages after account deletion: an upload runs outside the lock, so only rows are claimed.
- Redaction of provider messages: it changes no column modelled.
- 64-bit overflow of SUM over amounts in summaries.
- Extracted fields, predictions, corrections and attempt rows inside the review transaction: no modelled step reads them.
- Reading of typed entries, category matching and rules: CreateManualDraft is given what was read.
- Text.LowerChar: case mapping covers ASCII, Vietnamese letters and every character that maps to one of them; other letters stay, which shows only in the currency text of an exotic hint.
- Intake.OneReceiptPerImage: the lock is part of the machine, because the property is false without it.
