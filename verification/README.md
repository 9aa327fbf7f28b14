# Verification of the billing worker

A Dafny 4.11 model of the worker side of the Tori billing engine, with proofs of
what it keeps over whole runs. `dafny verify dfyconfig.toml` checks all of it.

The model follows the code. Rows and tables are values; where the program updates
them in place there is a class whose methods do the same updates and are proved
equal to a specification function, and the theorems are about those functions.

| File | What it models |
|---|---|
| `Calendar.dfy` | the proleptic Gregorian calendar (month lengths as in section 5.7 of RFC 3339, leap rule as in its appendix C) and Go's `time.Date` normalisation |
| `BillingCycle.dfy` | `addMonths`, `NextPeriod`, `nextPeriodEnd`, `resumeForwardPlan` |
| `JobQueue.dfy` | the job table's statements, and runs of several workers that can crash |
| `Ledger.dfy`, `Keys.dfy`, `Books.dfy` | the append-only ledger and its queries, the idempotency keys, and recording a charge in three writes |
| `Payouts.dfy`, `PayoutQueue.dfy` | the payout handler with overlapping runs, and its jobs on the queue |
| `Subscriptions.dfy` | the subscription row's UPDATE statements, the transition table, the dunning decision |
| `Handlers.dfy`, `Outcomes.dfy`, `Sweep.dfy` | the job handlers, their runs in closed form, and the sweep over abandoned checkouts |
| `Lifecycle.dfy`, `JobBooks.dfy` | what runs of jobs keep, one after another, and what they do to the books |
| `Effects.dfy` | which payment calls are made and what the row looks like afterwards, told from the row, the wallet, the plan and the clock |
| `GraceRace.dfy`, `RetryRace.dfy` | concurrent grace retries that loaded the same row, and recovery retries in any interleaving |
| `Money.dfy`, `Naira.dfy` | kobo as `%.2f` text under binary64 rounding (section 4.3.1 of IEEE 754-2008), and comma grouping |
| `Sessions.dfy`, `Touches.dfy` | the Redis session index, and touches whose reads and writes come apart |
| `FinOps.dfy`, `Ordering.dfy`, `Proration.dfy` | MRR and revenue by plan, sorting, proration |

## Assumptions

- Every SQL statement and every Redis command or transaction is atomic. A database
  write succeeds or the process dies; it dies between effects, never inside one.
- `Lifecycle.dfy` and `JobBooks.dfy`: the jobs of one subscription run one after
  another, each loading the row as the one before left it. Overlapping runs break
  some of these results; where, `RunCallsExactlyWhen`,
  `OverlapLeavesTheTableExactlyWhen`, `OverlapLeavesAttemptsExactlyWhen`,
  `CancelIsLostExactlyWhen`, `StaleRetryChargesExactlyWhen`, `RetryRace.dfy` and
  `GraceRace.dfy` say.
- `Touch` and `List` of the session store take their Redis commands as one step, and
  sessions have a positive ttl. In `Touches.dfy` the read of a touch (GET and TTL) and
  its write (SET) are steps of their own.
- There is one clock, it does not go back, and times are UTC. Redis times are whole
  seconds. `updated_at` never repeats for a row, so it is modelled as a version.
- Payment calls are answers: success, a decline code, or an infrastructure error.
  A successful answer carries the reference that was sent. Whether the provider takes a
  reference it has seen before is its answer too; a card call sends it no other key
  (internal/payment/nomba_client.go:217-226).
- Ids are UUID texts, so all have one length. Amounts and day counts obey the
  tables' CHECK constraints.
- binary64 is modelled without exponent limits, and proration in exact rationals.
- Integers are unbounded. Amounts would have to exceed 2^63 kobo to tell the
  difference.

## Where the documentation and the code differ

The model follows the code; each difference is a lemma.

- "January 31, February 28, then March 31" (frontend/lib/docs-data.ts:594): renewals
  drift to the shortest month passed (`JanuaryThirtyFirstDrifts`,
  `RenewalsDriftExactlyWhen`).
- Retries "at Day 3, 7, 14, and 21" (README.md:102): delays add up, giving days 3, 10,
  24 and 45 (`RetriesAccumulate`, `DefaultScheduleDays`).
- An infrastructure error is said not to burn an attempt
  (internal/billing/handlers.go:315-316): it does (`InfraErrorUsesAnAttempt`).
- "Double-billing a customer because a job retried is not a bug class"
  (README.md:132): it happens in three ways. A process that dies between a successful
  charge and the renewal leaves a subscription that is charged again: by a retry under
  another key (`CrashAfterChargeChargesAgain`), by a grace retry, whose key carries the
  time of the call (`GraceCrashChargesAgain`), or by an expiring trial
  (`ChargedAgainExactlyWhen`). For jobs one after another this is the only way, since
  `ChargesPerRenewalOrDeath` counts every charge that took money. Overlapping retries
  charge one number twice after a write lowers the counter (`SharedKeyMeansLowered`,
  `RenewalLetsASecondCharge`, `AbsoluteNumberRepeatsAKey`), and overlapping grace
  retries each charge (`MoneyWithoutARow`). Besides, a repeated reference leaves a
  charge without a row (`RecordedExactlyWhenFresh`, `SecondEpisodeIsNotRecorded`).
- "Every handler calls Transition first" (README.md:61): of jobs one after another the
  handlers leave the table in exactly three situations
  (`StepsLeaveTheTableExactlyWhen`); a run on a row that changed since it loaded it
  leaves by further edges, CANCELLED to ACTIVE among them, and
  `OverlapLeavesTheTableExactlyWhen` says exactly when.
- No charge after cancellation is requested (README.md:65): with the flag set when the
  run loads the row, an expiring trial with a card is still charged and nothing else is
  (`FlaggedRunCallsExactlyWhen`); set after that, it stops no run, and grace retries and
  retries call as well (`RunCallsExactlyWhen`). A cancellation itself is overwritten by
  every retry that writes its result after it (`CancelSurvivesExactlyWhen`).
- The recovery report's "recovered" money (internal/finops/service.go:311-315) counts
  rows that jobs running one after another never leave (`NoRowCountsAsRecovered`), and
  overlapping ones only by accident (`OverlapLeavesAttemptsExactlyWhen`).

## Model

| member | source | states |
|---|---|---|
| Calendar.DateOfDayNumberIsUnique | internal/billing/cycle.go:17-22 | day numbers and valid dates correspond one to one and in order, so time.Date normalisation has one answer for every overflowing month and day |
| Calendar.YearAhead | internal/billing/handlers.go:675-676 | twelve months on is 366 days exactly when a 29 February lies between, else 365, from every month of every year |
| Calendar.YearStart | internal/billing/cycle.go:12-23 | the month-by-month table and the closed form for years count the same days, for every year, negative ones too |
| Calendar.MonthStartIs | internal/billing/cycle.go:12-23 | every month of every year starts where the closed form without a table of lengths puts it, and is as long as the distance to the next |
| Calendar.InstantsOrderTimes | internal/billing/cycle.go:42-44 | instants order dates and clocks as they read, no two times share one, and a day is twenty-four hours |
| BillingCycle.AddMonthsLandsOn | internal/billing/cycle.go:12-23 | addMonths lands in the n-th month on, on the same day cut down to the month's length, at the same clock time |
| BillingCycle.AddMonthsIsMonotone | internal/billing/cycle.go:12-23 | addMonths keeps dates in weak order, for every n of either sign |
| BillingCycle.TrialEndDate | internal/billing/cycle.go:42-44 | the trial ends exactly that many days of 24 hours after its start |
| BillingCycle.RenewalsLandOn | internal/billing/cycle.go:26-39 | k renewals land exactly k periods later on the start day cut down to the shortest month visited |
| BillingCycle.RenewalsDriftExactlyWhen | internal/billing/cycle.go:26-39 | exactly when a chain of renewals falls short of the date k periods from the anchor, and when it loses the anchor day |
| BillingCycle.JanuaryThirtyFirstDrifts | frontend/lib/docs-data.ts:594 | 31 January 2026 renews on 28 February and then on 28 March, not 31 March |
| BillingCycle.PeriodsTile | internal/billing/cycle.go:26-39 | each period of a monthly or annual plan starts where the last ended and lasts 28 to 31 days for each of its months |
| BillingCycle.NextPeriodEndAdvances | internal/billing/handlers.go:673-683 | nextPeriodEnd advances by the length of the current month, by 365 or 366 days by the leap rule, or by the day count |
| BillingCycle.UnclampedOverflow | internal/billing/handlers.go:675-678 | AddDate equals addMonths exactly when the day exists in the target month, and is otherwise later by the overflow days |
| BillingCycle.PeriodFunctionsAgreeExactlyWhen | internal/billing/handlers.go:673-683 | the two period functions give one plan the same period exactly for custom plans and for single-count plans without overflow |
| BillingCycle.ResumeForwardPlan | internal/billing/handlers.go:690-709 | the loop ends; its counter is the least number of period steps reaching now; the new period starts and ends after now; the audit reason counts all skipped cycles but one |
| BillingCycle.SkippedCyclesBounds | internal/billing/handlers.go:693-698 | the counter is 0 without a gap, else between gap over longest step and gap over shortest step, both rounded up, hence exact for day-count plans |
| BillingCycle.ResumeTerminatesExactlyWhen | internal/billing/handlers.go:693-698 | the loop can end exactly when there is no gap or the plan's step is positive |
| JobQueue.Queue.Enqueue | db/generated/scheduled_jobs.sql.go:70-73 | a new job is a pending row with no attempts, appended |
| JobQueue.Queue.ClaimNext | db/generated/scheduled_jobs.sql.go:29-46 | claims a row that is eligible, not locked by another claim and earliest, counting the attempt, or none exactly when there is none |
| JobQueue.Queue.Finish | db/generated/scheduled_jobs.sql.go:170-210 | done, failed and requeue rewrite the row by id, whatever its status |
| JobQueue.Queue.RecoverStaleLocks | db/generated/scheduled_jobs.sql.go:193-198 | every processing row locked more than ten minutes ago, and no other, is pending and unlocked again |
| JobQueue.Queue.Retry | db/generated/scheduled_jobs.sql.go:222-226 | operator retry makes the row pending now with no attempts, whatever its status |
| JobQueue.Queue.CancelPendingJobsForSubscription | db/generated/scheduled_jobs.sql.go:17-22 | exactly the subscription's pending rows are cancelled |
| QueueRuns.FinishedForGood | db/generated/scheduled_jobs.sql.go:170-180 | a job its worker ends as done or failed stays so and is never claimed again, over every run without an operator retry of it |
| QueueRuns.DisciplinedRetryExactlyAfterFailure | db/generated/scheduled_jobs.sql.go:170-225 | of finished jobs a disciplined operator retry may take exactly the failed ones |
| QueueRuns.RetriedIsDue | db/generated/scheduled_jobs.sql.go:222-226 | operator retry makes a job due at once with all its attempts |
| QueueRuns.RequeuedWaits | db/generated/scheduled_jobs.sql.go:206-209 | a requeued job is due exactly from its new time on while attempts are left, and no run claims it before |
| QueueRuns.EnqueuedWaits | db/generated/scheduled_jobs.sql.go:70-73 | the same for a new job and the time it was enqueued for |
| QueueRuns.CancelledForGood | db/generated/scheduled_jobs.sql.go:17-22 | cancelling a subscription's jobs keeps each of its pending ones from ever being claimed, and leaves every other row as it was |
| QueueRuns.EnqueuedThenCancelled | db/generated/scheduled_jobs.sql.go:70-73 | a job enqueued for a subscription is among those |
| QueueRuns.CrashedJobComesBackExactlyWhen | db/generated/scheduled_jobs.sql.go:193-198 | the job of a dead worker is due and unlocked again exactly once recovery runs more than ten minutes after the claim, if attempts are left |
| QueueRuns.DisciplinedRunsAreExclusive | db/generated/scheduled_jobs.sql.go:29-46 | if live workers finish within ten minutes and only failed jobs are retried by hand, no job is ever held by two workers, over every run with crashes |
| QueueRuns.LateWorkerCanBeJoined | db/generated/scheduled_jobs.sql.go:193-198 | the ten-minute rule is needed: any worker past it, on a job with attempts left, can be joined by a second |
| QueueRuns.RetryOfRunningJobCanBeJoined | db/generated/scheduled_jobs.sql.go:222-226 | the failed-only rule is needed: retrying a job that is being worked on lets a second worker in |
| QueueRuns.AttemptsGrowByClaims | db/generated/scheduled_jobs.sql.go:31-40 | over every run, attempts never exceed max_attempts and grow by exactly the job's claims until an operator retry |
| QueueRuns.AttemptsAreClaimsSinceRetry | db/generated/scheduled_jobs.sql.go:222-226 | over every run, a job's attempts are its claims since its last operator retry |
| QueueRuns.BypassIsBounded | db/generated/scheduled_jobs.sql.go:38-43 | while an eligible job is passed over, other claims are at most the attempts left to jobs scheduled no later |
| QueueRuns.ExhaustedPotentialYieldsTheJob | db/generated/scheduled_jobs.sql.go:38-43 | once those are used up, a claim can take no row but that job |
| Keys.ParseOfDecimal | internal/billing/handlers.go:810-811 | %d text of an attempt number reads back as the number |
| Keys.RetryKeyIsInjective | internal/billing/handlers.go:747-811 | two recovery keys are equal exactly when rail, subscription and attempt are |
| Keys.InvoiceKeyIsInjective | internal/billing/handlers.go:485 | two invoice keys are equal exactly when subscription and reference are |
| Keys.ChargeKeyIsInjective | internal/billing/handlers.go:504 | two ledger charge keys are equal exactly when subscription and reference are |
| Keys.LedgerKeysOfDifferentKindsDiffer | internal/payout/service.go:137 | charge, trial-end and payout rows never share a key |
| Ledger.Service.Append | db/generated/ledger.sql.go:16-24 | a row is appended unless its key is used or its amount negative; nothing else changes |
| Ledger.Service.Record | internal/ledger/service.go:43-228 | each Record call appends the row of its type, direction and amount, or is refused |
| Ledger.RunKeepsSound | internal/ledger/service.go:43-228 | over every sequence of Record calls rows are never lost, keys stay unique, and credits are exactly refunds and credits |
| Ledger.Service.GetSummary | internal/ledger/service.go:231-239 | the summary query's figures and entry count with net revenue charged minus refunds minus credits, which is charged minus all credits on a ledger the Record calls wrote |
| Ledger.SummaryBalances | db/generated/ledger.sql.go:166-176 | total credits are refunds plus credits applied, and total debits are charges, prorations and payouts |
| Ledger.SummaryReportsWhatWasRecorded | internal/ledger/service.go:43-228 | over every sequence of accepted Record calls, charged, refunded, credited, the two totals and the entry count grow by exactly what was asked for in the account and range |
| Ledger.RowsAreWhatWasAsked | internal/ledger/service.go:43-228 | over every sequence of accepted Record calls, the rows of each kind for each subscription and invoice grow by exactly the calls that asked for one |
| Ledger.RepeatedCallIsRefused | README.md:132 | a call under a key already used is refused, whatever was recorded since and whatever it asks for |
| Ledger.CutoffMoves | db/generated/ledger.sql.go:76-84 | moving the settlement cut-off changes available by exactly the charges less refunds dated between, and pending by the charges |
| Ledger.MonthsAddUp | db/generated/ledger.sql.go:244-256 | the grouped rows are one per month in order, each with its month's charges and refunds, and add up to the summary of the same range |
| Ledger.EveryRunBalances | internal/ledger/service.go:22-37 | whatever was recorded, the summary and the months of every range balance with each other |
| Ledger.Service.GetMonthlyRevenue | internal/ledger/service.go:22-37 | one result per month row, net of refunds, and the nets add up to charged less refunded |
| Books.Store.CreateInvoice | db/generated/invoices.sql.go:17-25 | an open invoice is added exactly when its key is unused and its amount not negative |
| Books.Store.AppendCharge | internal/billing/handlers.go:503-511 | appends the charge row of the invoice, or reports that it was refused |
| Books.Store.MarkPaid | db/generated/invoices.sql.go:312-317 | marks that invoice paid and nothing else |
| Books.Store.CreateInvoiceForCharge | internal/billing/handlers.go:484-524 | invoice, ledger row, mark paid, in that order and cut short after any number of writes; a refused invoice ends it, a refused row does not |
| Books.FreshInvoiceMeansFreshCharge | internal/billing/handlers.go:495-511 | on consistent tables the append never collides after a fresh invoice, which rests on both keys being injective |
| Books.EveryRunIsConsistent | internal/billing/handlers.go:484-524 | over every run of recordings cut short anywhere, each charge row has its own invoice of equal amount, each paid invoice its charge row, each subscription and reference at most one row |
| Books.TotalsOverARun | internal/billing/handlers.go:484-524 | invoices cover charge rows, charge rows cover paid invoices, and the three totals are equal if nothing was cut short |
| Books.RecordingUsesOneReference | internal/billing/handlers.go:485-501 | a recording uses up its own subscription and reference and no other |
| Books.RecordingIsChargedWhere | internal/billing/handlers.go:503-511 | once its ledger row is written a recording counts in the summary for the account, live or test, and the time of the charge, and in no other summary |
| Books.RunIsChargedWhere | internal/billing/handlers.go:503-511 | the same over every run of recordings cut short anywhere |
| Books.RecordedExactlyWhenFresh | README.md:132 | a complete recording adds one paid invoice and one charge row exactly when no invoice has its subscription and reference, and otherwise leaves the tables as they were |
| Payouts.Processor.ProcessPayout | internal/payout/service.go:39-131 | the closed form of a run: which status, transfer and debit it leaves after any number of steps, in test and live mode |
| Payouts.ProcessedIsARunAlone | internal/payout/service.go:54-131 | that closed form is what the step-by-step state machine does when nobody else is on the payout |
| Payouts.EveryRunIsBooked | internal/payout/service.go:136-141 | in every run, overlapping or not, a PAYOUT row is for its payout's amount and account and no key repeats |
| Payouts.OneDebitPerPayout | internal/payout/service.go:136-141 | two PAYOUT rows of one payout are one row |
| Payouts.AvailableFallsByTheDebits | db/generated/ledger.sql.go:76-84 | over every run, at every cut-off, the available balance changes by what other rows make of it less exactly the PAYOUT rows the run added |
| Payouts.DebitShowsWhere | internal/payout/service.go:136-141 | the debit step takes the payout's amount from its own account at the time of the step, and from nowhere else |
| Payouts.SettledAsTheBankAnswered | internal/payout/service.go:68-123 | over every run, overlapping or not, a live payout is completed only if the bank confirmed a transfer of it and fails only if it refused one, and the bank is never called for a test payout |
| Payouts.AdmittedRunsAreOrderly | internal/payout/service.go:54-131 | if no two runs are between reading a pending row and marking it, the bank is called at most once per payout, every PAYOUT row belongs to a completed payout and failed ones have none, with crashes anywhere |
| Payouts.LostAreTheUndebited | internal/payout/service.go:82-131 | over every such run the completed payouts without a debit are exactly those there were before and those whose run died between completing them and appending it |
| Payouts.DebitsFallShortByTheLost | internal/payout/service.go:82-141 | once no run is in progress, the PAYOUT rows of an account fall short of the amounts of its completed payouts by exactly the amounts of those |
| Payouts.CompletedMeansDebited | internal/payout/service.go:123-128 | if besides nobody dies between completing and debiting, every completed payout has its row or is about to |
| Payouts.DebitsAreTheCompletedPayouts | internal/payout/service.go:123-141 | then, once no run is in progress, the PAYOUT rows of an account add up to exactly the amounts of its completed payouts |
| Payouts.BrokenRuleMeansTwoReaders | db/generated/payouts.sql.go:245-247 | a start that breaks the rule leaves two runs that have both read the row as pending, since marking is unconditional |
| Payouts.TwoReadersTransferTwice | internal/payout/service.go:63-131 | from any such state a run calls the bank twice and ends with a failed payout that is debited |
| PayoutQueue.AtMostOneTransferPerPayout | internal/payout/service.go:39-98 | with one job per payout on a disciplined queue, TransferToBank is called at most once per payout over every run with crashes |
| Subscriptions.OnTableExactly | internal/subscription/state_machine.go:29-77 | the edges some event of the transition table makes, exactly |
| Subscriptions.TransitionIsByEvent | internal/subscription/state_machine.go:29-77 | read by event instead of by status: an event leads to one status from exactly its source statuses, CANCELLED is terminal, and the rest are errors |
| Dunning.DecisionIs | internal/dunning/engine.go:40-103 | the engine gives up exactly on a non-retriable code or once attempts reach the schedule's limit outside the first failure of an active row; otherwise two days of grace, or the next attempt after its interval, counted from the failure |
| Dunning.RetriesAccumulate | internal/dunning/engine.go:89-90 | if each retry fails on time, the n-th lands after the sum of all intervals so far, and on its own interval's day exactly when the earlier ones are 0 |
| Dunning.DefaultScheduleDays | internal/domain/models.go:200-204 | the default intervals put retries on days 3, 10, 24 and 45 |
| Handlers.Worker.Update | db/generated/subscriptions.sql.go:1064-1379 | each UPDATE changes exactly its SET columns when its WHERE clause matches, and otherwise nothing |
| Handlers.Worker.AttemptRecoveryCharge | internal/billing/handlers.go:723-768 | the ladder makes at most one charge, on the rail and with the key that Effects.EveryCallIsJustified accounts for |
| Handlers.LadderClimbs | internal/billing/handlers.go:723-768 | with the same means a later attempt keeps its rail, or goes to the mandate on passing the third attempt, and never back |
| Effects.EveryCallIsJustified | internal/billing/handlers.go:723-817 | over every run of jobs one after another, dying anywhere: a wallet is debited only if it holds the price and then nothing else is, a card only if one is on file, a mandate only from the third attempt on where it can be debited; always the plan's price, under the job's own reference |
| Effects.RetryCallsExactlyWhen | internal/billing/handlers.go:257-312 | a retry that reaches its call makes one exactly when one of the three means is there |
| Handlers.Worker.RetryFailedPayment | internal/billing/handlers.go:257-359 | a retry, dying anywhere, makes exactly the effects of its specification in order |
| Handlers.Worker.GraceRetry | internal/billing/handlers.go:391-477 | the same for a grace retry with its version-guarded writes |
| Handlers.Worker.ExpireTrial | internal/billing/handlers.go:166-254 | the same for an expiring trial: no card, charged, or into grace |
| Handlers.Worker.SuspendSubscription | internal/billing/handlers.go:362-386 | suspends unless already suspended or cancelled |
| Handlers.Worker.CancelAtPeriodEnd | internal/billing/handlers.go:528-560 | cancels exactly when the flag is set |
| Handlers.Worker.SimulateWebhook | internal/billing/handlers.go:586-670 | activates and records a pending checkout for the amount it was given |
| Effects.RenewalEnds | internal/billing/handlers.go:166-670 | whichever job brings a subscription back, it is ACTIVE from now for one period of its plan, with no attempts and no retry due, and nothing else changes but a checkout's token and a retry's rail |
| Effects.DeclinedRetryEnds | internal/billing/handlers.go:336-358 | a declined retry schedules the next its interval's days from now while the code can be retried and the schedule has an interval left, and suspends otherwise |
| Effects.DeclinedTrialEnds | internal/billing/handlers.go:243-253 | a trial whose card is declined gets forty-eight hours of grace and one free trial-end row in its account |
| Effects.UnpaidTrialEnds | internal/billing/handlers.go:199-207 | one without a card is past due, with the same row |
| Effects.DeclinedGraceEnds | internal/billing/handlers.go:466-473 | a declined grace retry changes the status to PAST_DUE and nothing else |
| Effects.AbandonedExactlyWhen | internal/billing/abandoned_checkout.go:48-78 | an unseeded checkout without a token is abandoned after one hour, such a trial after twenty-four, and nothing else |
| Effects.EveryRunIsWellDated | internal/billing/handlers.go:166-670 | over every run of jobs an ACTIVE row has a period that ends after it starts and no retry due |
| Effects.EveryRunKeepsTheMeans | internal/billing/handlers.go:166-670 | no run of jobs without a checkout changes token or mandate, and a requested cancellation stays requested |
| Sweep.Sweeper.CheckAbandonedCheckouts | internal/billing/abandoned_checkout.go:25-114 | the sweep over the first 1000 subscriptions of each mode, dead after any number of writes: the due rows are moved and get their retry job in listing order, as many as the writes allow |
| Sweep.SweepLeaves | internal/billing/abandoned_checkout.go:81-98 | the i-th abandoned subscription of the page is PAST_DUE exactly if the process lived for its status write, and has exactly one job, due three days on, exactly if it lived for its enqueue |
| Sweep.MovedAsByTheJob | internal/billing/abandoned_checkout.go:87-91 | a moved row becomes PAST_DUE and changes nowhere else, as in the sweep's step on a single row |
| Sweep.SweepSparesOthers | internal/billing/abandoned_checkout.go:53-78 | no other row is changed and no other subscription gets a job, wherever the sweep died |
| Sweep.RetryJobIsDue | internal/billing/abandoned_checkout.go:92-97 | the job of a moved row is due from three days on, for three attempts |
| Sweep.DueAreTheFirstThousands | internal/billing/abandoned_checkout.go:40-79 | a sweep finds due exactly the abandoned among the first thousand subscriptions of each mode |
| Sweep.MovedWithoutAJobExactlyWhen | internal/billing/abandoned_checkout.go:87-98 | all moved rows but possibly the last have their job, and the last lacks it exactly when the process died between its two writes |
| Sweep.MovedRowsAreNotDue | internal/billing/abandoned_checkout.go:55-79 | a row once moved is not due again, at any later time |
| Sweep.DeathLosesAJob | internal/billing/abandoned_checkout.go:87-98 | so a death between the two writes leaves a PAST_DUE subscription that no later sweep makes a job for |
| Outcomes.RetryIs | internal/billing/handlers.go:257-359 | row, calls and books after a retry that loaded any earlier row and dies after any number of effects |
| Outcomes.GraceIs | internal/billing/handlers.go:391-477 | the same for a grace retry |
| Outcomes.TrialIs | internal/billing/handlers.go:166-254 | the same for an expiring trial |
| Lifecycle.RunOutline | internal/billing/handlers.go:166-670 | every run of every job, dying anywhere, makes at most the one call of its job and ends with a status and attempt counter from its job's list |
| Lifecycle.EveryRunKeeps | internal/billing/handlers.go:186-632 | over every run of jobs one after another CANCELLED is absorbing, SUSPENDED is left only for CANCELLED, rows outside dunning have attempt 0, each job calls at most once, and once cancellation is requested only an expiring trial can still call |
| Lifecycle.NoRowCountsAsRecovered | internal/finops/service.go:311-315 | jobs running one after another never leave an ACTIVE row with attempts |
| Lifecycle.OverlapLeavesAttemptsExactlyWhen | internal/billing/handlers.go:293-321 | an overlapping run leaves an ACTIVE row with attempts exactly when it is a retry that loaded attempt 0, finds the row renewed to 0, claims, and ends without a status write |
| Lifecycle.RunCallsExactlyWhen | internal/billing/handlers.go:166-437 | a run calls the provider exactly if it loaded a due row and reaches the call, and as a retry finds the counter it loaded; the flag and every other change to the row since the load do not matter |
| Lifecycle.FlaggedRunCallsExactlyWhen | internal/billing/handlers.go:186-423 | with cancellation requested before it loads the row, a run calls the provider exactly when it expires a trial that has a card |
| Lifecycle.FlaggedTrialIsCharged | internal/billing/handlers.go:186-232 | that trial is charged, and ends ACTIVE exactly if the charge succeeds and the run lives on |
| Lifecycle.StepsLeaveTheTableExactlyWhen | internal/subscription/state_machine.go:29-77 | a step on the row as it loaded it changes the status off the transition table exactly when it expires a trial whose card is declined, suspends outside dunning, or cancels in dunning, told from the row and the step |
| Lifecycle.OverlapLeavesTheTableExactlyWhen | internal/subscription/state_machine.go:29-77 | a run on a row that changed since it loaded it does so exactly when it lives to a status write that matches, and the status it is to write, told from the row it loaded and the answer, is no edge from the status it finds |
| Lifecycle.EveryOffTablePairHappens | internal/billing/handlers.go:248-380 | each of those pairs is reached |
| Lifecycle.AttemptNumbersRise | internal/billing/handlers.go:287-293 | over every run of jobs one after another, with crashes, the attempt numbers charged strictly increase |
| Lifecycle.RecoveryKeysDiffer | internal/billing/handlers.go:723-817 | so no two recovery charges of such a run share a key |
| Lifecycle.DunningIsBounded | internal/dunning/engine.go:68-87 | over every run of jobs one after another, with crashes, declined retries that reach their decision are at most min(MaxAttempts, intervals) + 1 less the attempts used |
| Lifecycle.RecoverySettlesOnce | internal/billing/handlers.go:326-334 | a successful retry charges one plan amount, however many cycles were missed, ends after now, and adds one paid invoice and one charge row of that amount if the reference is new, and nothing otherwise |
| Lifecycle.RecoveryIsRecordedExactlyWhen | internal/billing/handlers.go:326-334 | money taken by a retry has a charge row exactly when the process lived past the ledger write and the reference was new |
| Lifecycle.SecondEpisodeIsNotRecorded | internal/billing/handlers.go:804-817 | a later episode's first card charge reuses the key; if the earlier one was recorded, this one changes nothing in the books |
| Lifecycle.ChargedButRetriedExactlyWhen | internal/billing/handlers.go:293-330 | after a successful charge the subscription is still up for a retry exactly when the process died before the renewal |
| Lifecycle.CrashAfterChargeChargesAgain | internal/billing/handlers.go:293-330 | whenever it did, the next successful retry takes the money again under another key, and only that one can have a row |
| Lifecycle.MoneyIsTakenPerRenewalOrDeath | internal/billing/handlers.go:293-330 | counting recovery retries alone: over every run of jobs one after another the successful recovery charges are the renewals by retries, at most one, plus the retries that died between charge and renewal |
| Lifecycle.InfraErrorUsesAnAttempt | internal/billing/handlers.go:293-321 | an infrastructure error changes nothing but the attempt counter |
| Lifecycle.StaleRetryChargesExactlyWhen | db/generated/subscriptions.sql.go:102-109 | a retry that loaded an older row charges exactly when the counter has the value it loaded |
| Lifecycle.StaleRetryAfterRenewal | db/generated/subscriptions.sql.go:1064-1075 | since renewal resets the counter, such a retry can charge a renewed subscription and put it back into dunning |
| Lifecycle.CancelIsLostExactlyWhen | internal/billing/handlers.go:346-354 | a cancellation that lands between a retry's load and its first effect is overwritten exactly when the retry holds the counter and lives to its status write |
| Lifecycle.GraceNeverLosesACancel | internal/billing/handlers.go:448-473 | a grace retry never overwrites a cancellation, nor records after one |
| JobBooks.RunIsRecordedExactlyWhen | internal/billing/handlers.go:166-524 | the money a retry, a grace retry or an expiring trial takes has a charge row exactly when the process lives past the ledger write and the reference is new |
| JobBooks.JobsKeepTheBooks | internal/billing/handlers.go:484-524 | over every run of jobs one after another, with crashes, the books stay consistent, and money taken plus simulated is charge rows gained plus exactly the calls whose run died before its ledger write or whose reference was used |
| JobBooks.ChargeRowsWithinTaken | internal/billing/handlers.go:484-524 | so charge rows never gain more than was taken, and as much exactly when no call went unrecorded |
| JobBooks.JobsLeaveEachOthersReferences | internal/billing/handlers.go:214-660 | a charge recorded by one kind of job, or by a simulated checkout, never keeps one of another kind from being recorded |
| JobBooks.RunsAreChargedWhere | internal/billing/handlers.go:484-524 | over every run of jobs the charges the summary shows for an account, live or test, and a range grow by exactly the recorded calls and checkouts made for that account in that range |
| JobBooks.ChargedAgainExactlyWhen | internal/billing/handlers.go:166-477 | a retry, grace retry or expiring trial that took money leaves a row the same job charges again exactly when it died before the write that renews; otherwise no job charges that row |
| JobBooks.ChargesPerRenewalOrDeath | README.md:132 | over every run of jobs one after another, the charges of any kind that took money are the runs that lived to their renewal, at most one, plus the runs that died between charge and renewal |
| JobBooks.GraceCrashChargesAgain | internal/billing/handlers.go:430-451 | a grace retry that dies right after its charge is charged again by the next one, and the subscription ends ACTIVE |
| RetryRace.AloneIsRetryRun | internal/billing/handlers.go:293-354 | a run of the interleaving model that nobody disturbs does what the handler does, for every number of effects it lives |
| RetryRace.ClaimsPerLowering | db/generated/subscriptions.sql.go:102-109 | over every interleaving of retries with arbitrary loads, deaths and other writes, a counter value is claimed at most once more than the counter is brought back to it or below |
| RetryRace.LoweringWritesAre | db/generated/subscriptions.sql.go:1064-1192 | the writes that lower the counter are exactly the renewals and the absolute attempt numbers |
| RetryRace.ChargesPerLowering | internal/billing/handlers.go:293-312 | an attempt number is charged at most once more than that |
| RetryRace.SharedKeyMeansLowered | internal/billing/handlers.go:723-817 | two charges share a key only after such a write |
| RetryRace.AbsoluteNumberRepeatsAKey | db/generated/subscriptions.sql.go:1185-1192 | the absolute attempt number does it: three overlapping retries, two of which charge one number under one key |
| RetryRace.ClaimsExcludeEachOther | db/generated/subscriptions.sql.go:102-109 | retries that all loaded one row charge at most once in any interleaving with cancellations if it had used an attempt, and otherwise at most once more than they renewed it |
| RetryRace.RenewalLetsASecondCharge | db/generated/subscriptions.sql.go:1064-1075 | renewal does it too: after a winner renews, a run that loaded attempt 0 charges under the same key |
| RetryRace.CancelSurvivesExactlyWhen | internal/billing/handlers.go:326-354 | over every interleaving of retries with cancellations, wherever they land, the row ends CANCELLED exactly when no run's result comes after the last cancellation |
| GraceRace.GraceRunIsMoves | internal/billing/handlers.go:430-473 | a whole grace run that gets an answer is a charge cut short, or one guarded write followed by its recording, and took money exactly when the move says so |
| GraceRace.RaceWithoutTrigger | db/generated/subscriptions.sql.go:1373-1381 | without the trigger every interleaving ends CANCELLED if anyone cancelled, else ACTIVE if any charge succeeded, else PAST_DUE, and one run at most activates |
| GraceRace.RaceWithTrigger | db/migrations/000002_add_subscription_version_check.up.sql:5-15 | with it the first write decides unless someone cancels |
| GraceRace.TriggerIsHarmlessExactlyWhen | db/migrations/000002_add_subscription_version_check.up.sql:5-15 | the two agree exactly with a cancellation, without a success, or with the success first |
| GraceRace.AtMostOneInvoice | internal/billing/handlers.go:451-461 | at most one invoice is opened in any interleaving, however many charges succeeded |
| GraceRace.MoneyWithoutARow | internal/billing/handlers.go:430-461 | in any interleaving with deaths, the charge rows gain the price once if a recording lived to its ledger write on a new reference, and otherwise nothing |
| GraceRace.RacesKeepTheBooksExactlyWhen | internal/billing/handlers.go:430-461 | so all money taken has its row exactly when no charge succeeded, or a single one did and was recorded |
| Binary64.RelativeError | internal/payment/nomba_client.go:161 | rounding moves a number by at most half of its last place and one part in 2^53 |
| Binary64.RoundIsNearest | internal/payment/nomba_client.go:304 | no number with a 53-bit significand is closer than the rounding |
| MoneyText.WireTextReadsBack | internal/payment/nomba_client.go:161 | %.2f of float64(kobo)/100 is the kobo amount to the digit, below 2^51 |
| MoneyText.MoneyRoundTrip | internal/payment/nomba_client.go:464-472 | below 2^51 kobo the rounding readers return the amount sent, the truncating ones that or one kobo less, less exactly for the amounts LosesAKobo names |
| MoneyText.ProductFallsShortExactlyWhen | internal/payment/nomba_client.go:407 | with n the amount doubled until it is at least 100 * 2^52, a kobo is lost exactly when n < 2^59 and n modulo 100 is 33 to 49 |
| MoneyText.ScaledIs | internal/payment/nomba_client.go:407 | n is the amount times a power of two, and the amount in last places of kobo/100 |
| MoneyText.QuarterNairaIsSafe | internal/payment/nomba_client.go:407 | multiples of 25 kobo never lose |
| MoneyText.TruncationLosesAKobo | internal/payment/nomba_client.go:407 | 29 kobo comes back as 28 from a truncating reader |
| Naira.FormatNaira | internal/email/merchant_templates.go:21-36 | the loop ends with the digits in order, a first group of one to three and all others of three, joined by commas, for every amount |
| Naira.FormatRoundTrip | internal/email/merchant_templates.go:21-36 | without the commas the text of every non-negative amount reads back as kobo/100 |
| Naira.NegativeSignAlone | internal/email/merchant_templates.go:24-33 | a negative amount starts with a sign and a comma exactly when its digits fill whole groups |
| Ordering.SortsAndPermutes | internal/cache/redis.go:270 | sorting is in order and a permutation |
| Sessions.TokenStore.Create | internal/cache/redis.go:194-212 | stores the record with its ttl, indexes it, and sets the index's expiry to the same ttl |
| Sessions.TokenStore.Touch | internal/cache/redis.go:214-235 | taken as one step, updates last seen of a live session and keeps its expiry; anything else changes nothing |
| Sessions.TokenStore.IsActive | internal/cache/redis.go:237-240 | true exactly for a stored session that has not expired |
| Sessions.TokenStore.RevokeSession | internal/cache/redis.go:274-280 | removes the key and the index entry |
| Sessions.TokenStore.List | internal/cache/redis.go:242-272 | lists exactly the indexed live sessions once each, latest seen first, and prunes exactly the dead ids |
| Sessions.ListingRefinesAPlainMap | internal/cache/redis.go:194-280 | with one positive ttl, after every run of commands and at every later second, a listing is exactly the live entries of a plain map with expiry times, and leaves the index equal to them |
| Sessions.CreateKeepsIndexedExactlyWhen | internal/cache/redis.go:207-211 | creating a session keeps the index complete exactly when no other live session outlasts it |
| Sessions.OutlivedSessionIsNotListed | internal/cache/redis.go:207-211 | otherwise the longer session is live but in no listing after the index expired |
| Touches.UndisturbedTouch | internal/cache/redis.go:214-235 | the read and the write of a touch with nothing between them are the touch as one step |
| Touches.WriteKeepsIndexedExactlyWhen | internal/cache/redis.go:226-234 | of a complete index, a late write leaves a complete one exactly when its id was not taken out since the read and the session does not now outlast the index |
| Touches.StaysIndexedExactlyWhen | internal/cache/redis.go:194-280 | over every run of commands, reads and writes under one ttl, the index is complete after every step exactly when no write comes after a revocation, pruning or index expiry that took its id out, or so late that the session outlasts the index |
| Touches.TouchUndoesARevocation | internal/cache/redis.go:214-235 | a revocation between read and write is undone for as long as the session had left |
| FinOps.ListAll | internal/finops/service.go:79-93 | the paging loop gathers every row once and in order, for any page size |
| FinOps.ShareIs | internal/finops/service.go:208-218 | a charge on a known annual plan counts a twelfth, short by less than a kobo, and any other, be it monthly, custom, unknown or of a payment link, counts in full |
| FinOps.ListingAddsUpToTheSummary | db/generated/ledger.sql.go:582-591 | the listing holds exactly what the summary query counts as charged |
| FinOps.InMonthExactlyWhen | internal/finops/service.go:174-175 | a month's range is the times dated in it and the instant the next one begins |
| FinOps.GetMRR | internal/finops/service.go:173-229 | the paged and cached figure is the plain sum over the ledger, for any page size, and a twelfth of the exact yearly sum to 11 kobo a year for each charge on an annual plan |
| FinOps.GetARR | internal/finops/service.go:231-241 | twelve times that, so the exact yearly sum to the same 11 kobo |
| FinOps.ArrShortfall | internal/finops/service.go:217-219 | ARR is short of the exact yearly figure by at most 11 kobo per annual charge, and by nothing exactly when those divide by 12 |
| FinOps.AdjacentMonthsOverlap | db/generated/ledger.sql.go:582-591 | the range includes both ends, so two months in a row exceed the double month by the charges made at the boundary instant |
| FinOps.GetBalance | internal/finops/service.go:155-171 | settles at midnight; gross is all charges less earlier refunds and all payouts |
| FinOps.GetPlanBreakdown | internal/finops/service.go:363-422 | one row for each plan charged, with its total, its name and its distinct subscriptions, largest total first, for any page size |
| FinOps.ReportedPlansAre | internal/finops/service.go:386-412 | a plan is reported exactly when some charged subscription is on it, under its catalog name or as unknown, with the number of its distinct charged subscriptions |
| FinOps.BreakdownConserves | internal/finops/service.go:363-422 | the totals add up to every charge whose subscription is known, and each is its plan's sum over the ledger |
| Proration.DaysAre | internal/billing/proration.go:21-31 | a period's days are rounded up and at least one; the days remaining are the nearest to the time left, halves up, and none once it is over |
| Proration.CreditIsBoundedAndFalls | internal/billing/proration.go:21-46 | from the period's start on the credit lies between 0 and the old price and never rises with time |
| Proration.ProratedWithinAmountExactlyWhen | internal/billing/proration.go:32-36 | a prorated amount stays within the whole exactly when the days remaining exceed the period by less than half a kobo's worth |
| Proration.CreditBeforeTheStart | internal/billing/proration.go:21-46 | a whole period before the start the credit is twice the price, for a period of any number of days |
| Proration.NetIsWithinOneKobo | internal/billing/proration.go:35-37 | the net is less than one kobo from the exact rational adjustment |
| Proration.NetTelescopes | internal/billing/proration.go:37 | along any chain of plan changes at one instant the net depends on the first and last plan only |
| Proration.ReversalCancels | internal/billing/proration.go:37 | a change and its reversal cancel |

## Left out

- HTTP calls, JSON, token fetching, pay links, e-mails, webhooks, audit rows and log lines: no property here depends on them.
- HTTP routers, authentication, rate limits, OAuth, one-time passwords and API keys: plumbing.
- The reconciliation service, churn, health and forecast figures, and the recovery report's other totals: easy sums.
- Simple CRUD and row scanning in db/generated and internal/postgres: thin wrappers.
- Pause, resume, plan changes and webhook renewals on the subscription row: API handlers, outside the worker.
- The worker loop itself (internal/scheduler/worker.go:90-131): a worker may end a job as done, failed or requeued, of which the loop does the first two.
- A failed UPDATE of a handler that carries on (for example `MarkProcessing` in internal/payout/service.go:63-65, or the sweep's enqueue in internal/billing/abandoned_checkout.go:93): writes succeed or the process dies.
- The missing 'cancelled' in the job table's status CHECK (db/migrations/000001_create_schema.up.sql:176-181): the statement is modelled as its SQL text says.
- What the books get in an interleaving of retries: the race follows the row and the calls; the recording comes after both and is covered run by run. Grace retries are interleaved with grace retries and cancellations only.
- MoneyText.MoneyRoundTrip: amounts from 2^51 kobo on, where float64 no longer separates all kobo amounts; negative amounts, which no caller sends.
- FinOps.GetMRR: paging is over one fixed snapshot and one order of equal timestamps; the database promises neither between pages.
- Sessions.TokenStore.Create: a ttl of zero or less, which the Redis client reads as no expiry for the key and deletion of the index; the one caller passes seven days.
- Touches.UndisturbedTouch: the GET and the TTL of a touch (internal/cache/redis.go:216-226) are one read; only the SET comes apart from them.
- Time zones, clock skew, sub-second Redis times and floating-point error in proration: see Assumptions.
