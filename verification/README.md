# StableRail, modelled and verified

StableRail moves money through sagas built from PostgreSQL transactions, a transactional
outbox, a Kafka log and an inbox. This project models that machinery in Dafny and proves
what has to hold across it: payment status, ledger journals, saga state, in-flight commands
and provider submissions must agree under late, repeated and reordered messages, timeouts,
crashes and operator decisions.

## How the model is built

| files | what they hold |
|---|---|
| `PaymentCore`, `Ledger`, `Provider` | shared vocabulary, double-entry lines, the provider boundary and an idempotent provider |
| `PayoutSaga`, `PayoutProtocol` | the saga's moves, and one function per transaction on everything stored about one payout |
| `PayoutInvariant`, `PayoutTheorems`, `PayoutStages`, `PayoutOrder`, `PayoutProvider`, `PayoutSubmissions` | the payout invariant, and what follows from it for every run |
| `PayoutCauses`, `PayoutOutcomes`, `PayoutReports` | what every outcome of a payout needs as its cause in the run, what every decision, answer, report and timeout leads to, and what streams of reports add up to |
| `PayoutExamples`, `PayinExamples` | complete runs into the situations where code and documentation part |
| `PayinProtocol`, `PayinTheorems`, `PayinReceipts`, `PayinCauses`, `PayinOutcomes` | the pay-in protocol, its invariant, what provider reports and ledger records do in every run, and the causes and consequences of every outcome |
| `PaymentWorld`, `WorldTheorems`, `WorldRuns`, `WorldTerms` | all payouts and pay-ins at once: quotes, idempotent creation, refunds, references, and the terms on which they come about |
| `Store`, `LedgerService`, `SagaCoordinator`, `CommandWorker`, `WebhookService`, `PaymentService`, `PayinService`, `PaymentSystem` | the same transactions as code that updates database tables, each proved to do exactly what its protocol function says |
| `SagaTimeouts` | which sagas a timeout call claims, and how overdue sagas drain |
| `Delivery`, `DeliveryProofs`, `Relay`, `Backoff` | outbox relays, topic logs, consumers, and retry delays over int64 |
| `OutboxLanes`, `PayoutDelivery`, `PayinDelivery` | one payment on the shared bus: what delivery does to its commands |
| `Reconciler`, `ReconciledRuns`, `SchemaRegistry` | reconciliation runs, what their findings mean along the run of a payment, and payload upcasting |

A run is a sequence of labelled steps: one database transaction, one provider call, one
crash, one webhook. The payout protocol puts no order on deliveries: a consumer may take any
message ever written, at any time and any number of times. Where in-order command delivery
matters (returned payouts, pay-ins) the theorem says so. `PayoutDelivery` and `PayinDelivery`
then put one payment on the bus of `Delivery`: its transactions append outbox rows, relays,
consumers and other payments act in between, and its commands are taken from the cursor of a
partition, through the inbox. Every such run ends as an in-order run of the payout protocol,
or as a run of the pay-in protocol whose cursor is what the inbox has seen, so the theorems
hold of whatever is delivered.

Two families of theorems say what the protocols are for without naming a step's own function.
`PayoutCauses` and `PayinCauses` classify what policy, provider and operator can say, and prove
over every run that nothing is funded, paid, failed, sent back or held unless somebody said so.
`PayoutOutcomes` and `PayinOutcomes` prove what each of these leads to from every reachable
state: the message is delivered, the command that follows is worked, and the payment is what
was said.

The services carry ghost fields `rows` and `payinRows`, which are what the tables hold about
each payout and each pay-in. Every transaction method states their new value through the
protocol function of that transaction. `PaymentSystem.RunAll` closes the loop: any sequence
of transactions on a new database leaves it as a run of the protocols does.

## Assumptions

- Rows of one aggregate become visible in `sequence_number` order, a partition has one live
  reader, and a key always hashes to the same partition of a topic.
- A publication whose error has been reported does not reach the log afterwards: it has been
  appended by then or it never will be.
- Row locks serialise the transactions on one payment, so each transaction is one step.
- Amounts and quote terms do not change after insert, and generated ids are fresh.
- Provider references of different payouts differ, as the tables' UNIQUE constraints demand;
  for an outbox id or a pay-in reference that another payment already uses, the model takes
  the conflict branch.
- Submissions are ordered by their insertion, which stands for `created_at`.
- CHECK and UNIQUE constraints hold as in the migrations (journals per payment and event
  type, payout and pay-in statuses, idempotency keys, submission references).
- Clocks, generated ids, policy decisions, provider replies and publication outcomes are
  parameters of the steps.

## Where the documentation and the code disagree

- The repository's README.md:142 says that a returned payout leaves its payment `failed`. Under in-order
  delivery `payment.return` is refused in every reachable state and the payment stays
  `processing`: `PayoutOrder.ReturnedPayoutsStayProcessing`, for every delivered payout
  `PayoutDelivery.DeliveredReturnsStayProcessing`, with a complete run in
  `PayoutExamples.ReturnedWhileProcessing`.
- The repository's README.md:354 says that a lost response leads to another execution with the original key.
  A crash after the call and before the answer is recorded leaves `submission_pending`
  without a reference, and no later step calls the provider again:
  `PayoutProvider.LostResponseIsNeverResubmitted`, with a run in
  `PayoutExamples.ResponseIsLost`. A call happens exactly when there is no attempt yet or an
  unknown outcome is on record: `PayoutProvider.ExecuteCallsIff`. An answer whose failure code
  is `refunded` or `submission_failed` with spaces around it cannot be stored and is lost in
  the same way: `PayoutProvider.UntrimmedAnswerStrands`.
- The repository's README.md:144 says that a settlement timeout retries the provider command. Once a
  submission has recorded the reference, no `settlement.execute` that is issued again can
  commit or publish an outcome, because `settlement_submissions.provider_reference` is UNIQUE:
  `PayoutSubmissions.RetriedExecuteCommitsIff` and `PayoutSubmissions.SubmissionsAreFinal`,
  with a run in `PayoutExamples.RetryCommitsNothing`.
- The repository's README.md:185 says that a webhook can advance a pay-in to `processing` or `refunded`.
  `processing` is stored as `pending`, which the table refuses, so such reports can be left out
  of any run (`PayinReceipts.ProgressReportsAreLost`); `PayinReceipts.ReportChangesIff` says
  exactly which reports change a pay-in, and none ever yields `refunded`
  (`PayinTheorems.RefundsNeverHappen`).
- The repository's README.md:181 says that a confirmed pay-in is recorded in the ledger. A report that
  arrives while an execution is being applied is overwritten
  (`PayinReceipts.LateResultOverwritesReport`), and the record that the saga asks for is then
  refused, as in the run of `PayinExamples.RecordIsRefused`. `PayinReceipts.RecordCommitsIff`
  says when a record commits and what cures a refused one, and
  `PayinReceipts.RefusedRecordWaits` that nothing else does.
- A direct payout whose provider answers with another destination currency is created, but its
  repetition is reported as a conflict: `WorldRuns.CreationIsIdempotent` says exactly when,
  `WorldRuns.UnechoedCreationConflicts` gives the case.
- The webhook dispatcher doubles before it clamps, so its delay can wrap around int64:
  `Backoff.DispatcherFollowsPolicyIff` says exactly when it follows the policy.

## Model

| member | source | states |
|---|---|---|
| `PayoutSaga.Configure` | paymentcore/payout/coordinator.go:58-80 | refused iff a timeout or the batch size is negative; otherwise every given setting is kept and every missing one is 1 minute, 1 minute, 10 minutes, 24 hours and 100 sagas |
| `PayoutSaga.EventMovesSeparate` | paymentcore/payout/coordinator.go:154-196 | every event move keeps settling and unwinding closed, issues a command only into its own stage, and sets a deadline iff the new state can expire |
| `PayoutSaga.OtherMovesSeparate` | paymentcore/payout/coordinator.go:282-358 | the same separation for timeouts and for operator decisions |
| `PayoutInvariant.PerformKeeps` | workers/handlers.go:58-200 | every step of the protocol, from any consistent payout and for any delivered message, leaves it consistent: commands, replies, journals, entries, history, deadline, attempt and return rows agree |
| `PayoutInvariant.RunKeeps` | paymentcore/payout/coordinator.go:94-130 | the same over every run |
| `PayoutInvariant.DeliverKeeps` | paymentcore/payout/coordinator.go:94-196 | delivering any event ever written, again or out of order, keeps the payout consistent |
| `PayoutInvariant.WorkKeeps` | workers/handlers.go:58-200 | working any command ever written, again or out of order, keeps the payout consistent |
| `PayoutInvariant.WebhookKeeps` | settlement/blindpay/webhook.go:115-191 | any provider delivery keeps the payout consistent |
| `PayoutTheorems.StatusJournalAndSagaAgree` | ledger/service.go:173-225 | in every reachable state: succeeded iff the succeeded journal exists, a completed saga implies succeeded, succeeded implies settling or completed, failed implies failed, returning or returned |
| `PayoutTheorems.CommandLogNeverMixes` | paymentcore/payout/coordinator.go:154-196 | a command log with payment.settle holds no release, failure or return command; no payment has both a succeeded and a released journal; releasing_ledger and ledger_released are unreachable |
| `PayoutTheorems.SettleIsNeverRefused` | ledger/service.go:63-67 | an issued payment.settle always posts, whenever it is delivered |
| `PayoutTheorems.NoticesNeverContradict` | workers/handlers.go:223-261 | a merchant is never told both payment.succeeded and payment.failed |
| `PayoutTheorems.TimelineFollowsStatus` | ledger/service.go:215-223 | the timeline always ends in the current status, and consecutive entries are equal or follow created, processing, succeeded, or a failure before success |
| `PayoutTheorems.DeadlineIffExpirable` | paymentcore/payout/coordinator.go:198-213 | a reachable saga has a deadline iff its state can expire |
| `PayoutStages.DeliveredEventsDecide` | paymentcore/payout/coordinator.go:154-196 | in every reachable state a delivered event either reports on what the saga waits for or is admitted late news, and then the event alone decides the new state, which gets its own timeout and issues its command; any other event changes nothing |
| `PayoutStages.DeadlinesFollowMoves` | paymentcore/payout/coordinator.go:198-213 | over every run the deadline is the state's timeout after the last step that moved the saga, so no state expires early |
| `PayoutStages.FinishedSagasRest` | paymentcore/payout/coordinator.go:154-196 | no event, timeout or review ever moves a completed or returned saga |
| `PayoutTheorems.LedgerConservesMoney` | ledger/service.go:210-214 | every journal is one debit and one credit of the payment's amount, the two accounts mirror each other, and cash is held exactly while the funds are reserved and neither settled nor released, or returned after success |
| `PayoutTheorems.ProviderCallsAreApprovedAndFunded` | paymentcore/payout/execute.go:95-135 | whenever the provider is about to be or has been called, policy has approved the payment and a reservation of the accepted quote's sender amount is posted |
| `PayoutCauses.NewsIsNeverInvented` | settlement/blindpay/webhook.go:409-434 | no saga event, payout status or worker result says anything that no answer and no delivery of the run has said |
| `PayoutCauses.FundingNeedsApproval` | workers/handlers.go:110-124 | over every run: unless policy approves, nothing is posted and the provider is never called |
| `PayoutCauses.SuccessNeedsCause` | settlement/blindpay/webhook.go:409-434 | over every run: unless the provider reports completion or an operator completes, payment.settle is never issued and the payment never succeeds |
| `PayoutCauses.FailureNeedsCause` | paymentcore/payout/coordinator.go:154-196 | over every run: a payment fails or is unwound only after a rejection, a timeout before submission, a failure or return reported by the provider, or such an operator decision |
| `PayoutCauses.ReversalNeedsCause` | paymentcore/payout/coordinator.go:154-196 | over every run: a reservation is released only after the provider sent the money back or an operator said so |
| `PayoutCauses.HoldNeedsCause` | paymentcore/payout/coordinator.go:154-196 | over every run: a saga is on hold or in manual review only after the provider reported a hold |
| `PayoutOutcomes.PolicyDecides` | workers/handlers.go:110-124 | at every reachable wait for policy: a rejection fails the payment with its reason, an approval gets the funds reserved, an error changes nothing |
| `PayoutOutcomes.ReportsDecide` | settlement/blindpay/webhook.go:154-191 | at every reachable wait or hold: a new report of completion ends in success, of failure in failure, of a refund in the release, of a hold in a hold |
| `PayoutOutcomes.FinalReportIsResent` | settlement/blindpay/webhook.go:163-170 | a final report repeated under another message id is passed on again and changes nothing else |
| `PayoutOutcomes.LateRefundsReturnIff` | settlement/blindpay/webhook.go:174-184 | at every reachable completed payout a refund report is taken in iff the payment has succeeded, and then the return is posted, recorded once and announced |
| `PayoutOutcomes.AnswersDecide` | paymentcore/payout/result.go:16-52 | at every reachable wait: a storable first answer is recorded with its reference and one submission, and the payment becomes what it says |
| `PayoutOutcomes.OpenErrorsAreRetried` | paymentcore/payout/execute.go:66-81 | at every reachable state: after a fault or a retryable refusal the next settlement.execute calls again with the same key and quote |
| `PayoutOutcomes.FinalRefusalsAreFinal` | paymentcore/payout/execute.go:66-81 | after a refusal for good the provider is never called again |
| `PayoutOutcomes.RefusedSubmissionsFail` | workers/handlers.go:133-144 | a refused submission ends in a failed payment |
| `PayoutOutcomes.ReviewsDecide` | paymentcore/payout/coordinator.go:263-305 | at every reachable manual review: complete ends in success, fail in failure, return in the release, and retry goes back to the hold without a command |
| `PayoutOutcomes.TimeoutsDecide` | paymentcore/payout/coordinator.go:342-362 | at every reachable passed deadline: before submission the payment fails, otherwise the outstanding command is issued again or a hold goes to review; a repeated settlement succeeds |
| `PayoutReports.NoticesTellTheOutcome` | workers/handlers.go:223-261 | over every run the merchant has been told of success iff the payment succeeded, of failure iff it failed, of processing iff the funds were reserved |
| `PayoutOrder.PolicyFailureIsFinal` | paymentcore/payout/coordinator.go:343-346 | a payout rejected or timed out at policy never gets a journal or a provider call |
| `PayoutOrder.NotIssued` | paymentcore/payout/coordinator.go:198-231 | a command that the saga's new stage cannot issue was not issued by the step that led there |
| `PayoutOrder.OutcomesAreFinal` | workers/handlers.go:162-190 | no step takes a payment out of succeeded or out of failed |
| `PayoutOrder.OnlyReleaseReleases` | ledger/service.go:57-61 | only a ledger.release worked on a processing payment posts the release journal |
| `PayoutOrder.FailureTakesEffect` | workers/handlers.go:170-185 | an issued failure command always leaves the payment failed |
| `PayoutOrder.ReturnedPayoutsStayProcessing` | workers/handlers.go:171-185 | with commands worked in order, payment.return is refused in every reachable state and a returned saga has a processing payment |
| `PayoutExamples.ReturnedWhileProcessing` | README.md:142 | an in-order run that ends with a returned saga and a processing payment |
| `PayoutDelivery.DeliveredRunsAreInOrder` | consumer/consumer.go:51-89 | whatever relays, consumers and other payments do on the bus, a payout whose commands are taken from the cursor through the inbox ends as an in-order run of the protocol |
| `PayoutDelivery.DeliveredReturnsStayProcessing` | workers/handlers.go:171-185 | every delivered payout refuses payment.return, and a returned one has a processing payment |
| `PayoutDelivery.HandledCommandsAreDecided` | workers/handlers.go:58-200 | a command read from the bus is applied iff it left a reply, read again iff policy could not decide, and otherwise rejected without a trace |
| `PayoutProvider.CallsAreRepeatable` | paymentcore/payout/execute.go:48-65 | all calls of a payment carry one key and one provider quote, and a repeat is only made from a recorded unknown outcome without a reference |
| `PayoutProvider.ExecuteCallsIff` | paymentcore/payout/execute.go:56-63 | settlement.execute leads to a call iff there is no attempt, or the attempt has no reference and an unknown outcome |
| `PayoutProvider.LostResponseIsNeverResubmitted` | paymentcore/payout/execute.go:60-62 | a payout left without reference and without a recorded unknown outcome is never called for again and never changes |
| `PayoutProvider.CrashStrands` | paymentcore/payout/execute.go:65-92 | a first call followed by a crash leaves a consistent payout in exactly that situation, and the payout row and the one call never change again |
| `PayoutExamples.ResponseIsLost` | README.md:354 | an in-order run, for any reply, that reaches that situation |
| `PayoutProvider.ReferenceEndsCalls` | paymentcore/payout/execute.go:57-59 | once a reference is stored it never changes and no call is made |
| `PayoutProvider.ReplayYieldsSameEvent` | paymentcore/payout/result.go:59-92 | an answer cannot be stored iff its failure code is refunded or submission_failed with surrounding spaces; every other answer replays from the table as its original saga event |
| `PayoutProvider.UntrimmedAnswerStrands` | paymentcore/payout/result.go:59-92 | an answer to the first call that cannot be stored leaves the payout never called for again |
| `PayoutExamples.UntrimmedAnswerIsLost` | paymentcore/payout/result.go:59-92 | an in-order run that loses such an answer |
| `PayoutSubmissions.RetriedExecuteCommitsIff` | paymentcore/payout/result.go:23-29 | in every reachable state the result of a new settlement.execute commits iff no submission has recorded a reference, and otherwise changes nothing |
| `PayoutSubmissions.SubmissionsAreFinal` | paymentcore/payout/result.go:16-52 | once a reference is recorded, no later step of any run adds a submission, and only commands already on record publish outcomes |
| `PayoutSubmissions.RepeatedResultsUpdate` | paymentcore/payout/result.go:16-29 | a result that comes again for a command on record updates the status of that submission and nothing else on record |
| `PayoutExamples.RetryCommitsNothing` | paymentcore/payout/coordinator.go:344-346 | an in-order run in which the timeout issues settlement.execute again and applying its answer writes nothing |
| `PayoutProvider.WebhookAdvances` | settlement/blindpay/webhook.go:162-173 | a delivery touches nothing of the attempt but the status, and only to advance it |
| `PayoutProvider.StatusChangesAreBounded` | settlement/blindpay/webhook.go:285-320 | under any webhook stream a submitted payout changes status at most five times |
| `PayoutProvider.TerminalStatusesHold` | settlement/blindpay/webhook.go:285-293 | failed and refunded are final and completed only becomes refunded |
| `PayoutReports.FirstFinalReportWins` | settlement/blindpay/webhook.go:285-320 | over every run the first final report decides, except that completion can still become a refund, with its return journal; a hold sticks until then |
| `PayoutProvider.RefundPostsReturn` | settlement/blindpay/webhook.go:174-184 | completed becomes refunded only together with exactly one return journal and one payment_returns row, and the payment stays succeeded |
| `PayoutProvider.ReplayedDeliveryIsANoOp` | settlement/blindpay/webhook.go:163-170 | replaying a delivery that has left its message changes nothing at any later point of a run |
| `Provider.RepeatedCallsAgree` | settlement/provider.go:43-64 | an answered key gets the same answer forever, whatever would be offered later |
| `Provider.PayoutsWereRequested` | settlement/provider.go:43-64 | the provider holds payouts only for keys it was called with |
| `Provider.MockProvider.ExecutePayout` | settlement/provider.go:43-64 | the map of payouts and the answer change exactly as one idempotent call demands |
| `Provider.MockProvider.CreatePayoutQuote` | settlement/provider.go:66-75 | a quote is issued iff key and amount are valid; it is named after the key, echoes currencies and amount at par, expires in five minutes, and is entered in the amount table, the only thing that changes |
| `WorldTheorems.StepWorldKeeps` | paymentcore/payout/create.go:75-208 | creation, quoting, refunding and every protocol step keep keys, quotes, refund totals and every payment consistent |
| `WorldTheorems.StepKeepsTerms` | paymentcore/payout/create.go:146-154 | no protocol step changes a payment's amount, currency, key or quote |
| `WorldTheorems.RefundedFalls` | paymentcore/payout/refund.go:79-83 | as failed is final, existing refunds can only add up to less as payments move on |
| `WorldRuns.RefundsNeverExceedPayment` | paymentcore/payout/refund.go:79-86 | in every reachable database the non-failed refunds of a payment add up to at most its amount |
| `WorldRuns.QuotesBindOnce` | paymentcore/payout/create.go:142-181 | an accepted quote belongs to exactly one payment with equal tenant, currency and amount, and a payment has at most one quote |
| `WorldRuns.ProviderKeysIdentifyPayments` | paymentcore/payout/execute.go:130-130 | provider calls share a key iff they belong to one payment, and then they are equal |
| `WorldRuns.OnePayoutPerPayment` | settlement/provider.go:49-63 | whatever calls reach an idempotent provider, different payouts it holds belong to different payments |
| `WorldRuns.CreationIsIdempotent` | paymentcore/payout/create.go:75-173 | creation in two transactions with anything in between; repeating them later changes nothing, finds the quote again iff the request named it or the provider echoed the requested currency, and accepting it returns the same payment |
| `WorldRuns.UnechoedCreationConflicts` | paymentcore/payout/quote.go:22-27 | a direct payout that is created once and whose repetition is refused |
| `WorldRuns.PayinReferencesDiffer` | paymentcore/payin/result.go:76-78 | in every reachable database different pay-ins hold different references and keys, and no pay-in is a payout |
| `WorldRuns.SucceededPayinsStay` | paymentcore/payin/result.go:76-83 | a succeeded pay-in keeps its status and its one journal whatever the database goes through |
| `WorldTerms.QuotesMeetRequests` | paymentcore/payout/quote.go:13-57 | an answered quote has the requested terms; a new one is open, unexpired and at the provider's positive price |
| `WorldTerms.QuotesAreDistinctOffers` | paymentcore/payout/quote.go:33-56 | in every reachable database each quote has a positive price and a provider quote of its own |
| `WorldTerms.OnlyLiveQuotesBind` | paymentcore/payout/create.go:133-141 | whatever step of a run binds a quote to a payment, the quote was open and not expired by that step's clock |
| `WorldTerms.StaleQuotesExpire` | paymentcore/payout/create.go:133-141 | accepting an open quote past its expiry creates nothing and leaves it expired |
| `WorldTerms.AcceptedIff` | paymentcore/payout/create.go:106-181 | an open quote becomes a new payment iff it is unexpired and tenant, currency and amount match |
| `WorldTerms.CreationsMeetRequests` | paymentcore/payout/create.go:210-232 | in every reachable database, the payment that a creation answers with, new or found, has all requested terms |
| `WorldTerms.OnlySettledPaymentsAreRefunded` | paymentcore/payout/refund.go:70-78 | in every reachable database every refunded payment has succeeded and its success is posted |
| `WorldTerms.RefundedIff` | paymentcore/payout/refund.go:29-151 | in every reachable database a first refund request is granted iff the payment succeeded, the amount fits in what other refunds left, and a named quote is live and for that amount |
| `Ledger.JournalsBalance` | ledger/service.go:210-214 | cash holds the net position of the posted journals and the settlement account its negative |
| `Ledger.JournalLines` | ledger/service.go:210-214 | the entries of each posted journal are exactly its debit and its credit line |
| `Store.Database.InsertJournal` | ledger/service.go:199-209 | a journal is inserted iff the payment has none of that type, and nothing else changes |
| `Store.Database.InsertOutboxOnce` | paymentcore/payin/result.go:89-91 | a message is inserted iff no row of the whole outbox uses its id |
| `LedgerService.InsertLines` | ledger/service.go:210-214 | the loop adds exactly the two lines of the journal and leaves debits equal to credits in every currency over all payments |
| `LedgerService.PostFrom` | ledger/service.go:173-225 | accepted iff the status is allowed or already reached; then the payment's rows are exactly those of the posting, else nothing changes |
| `LedgerService.ReserveFunds` | ledger/service.go:51-55 | reserves exactly when the protocol does |
| `LedgerService.ReleaseFunds` | ledger/service.go:57-61 | releases exactly when the protocol does |
| `LedgerService.SettlePayment` | ledger/service.go:63-67 | settles exactly when the protocol does |
| `LedgerService.ReturnFunds` | ledger/service.go:121-167 | records the return of a settled payment once, with its journal, lines, return row and history entry |
| `SagaCoordinator.UpdateAndCommand` | paymentcore/payout/coordinator.go:198-231 | saga row and command change together as the move says, and no other payment is touched |
| `SagaCoordinator.StartSaga` | paymentcore/payout/coordinator.go:132-152 | a saga is created and policy.evaluate sent only the first time |
| `SagaCoordinator.Handle` | paymentcore/payout/coordinator.go:96-130 | an accepted event makes its move, an invalid one changes nothing, and it says which |
| `SagaCoordinator.ResolveManualReview` | paymentcore/payout/coordinator.go:263-305 | takes effect iff operator, note and action are valid and the saga is in manual review |
| `SagaCoordinator.ExpireClaimed` | paymentcore/payout/coordinator.go:342-362 | a claimed saga makes exactly its timeout move |
| `SagaCoordinator.ExpireOnce` | paymentcore/payout/coordinator.go:309-367 | the overdue sagas with the earliest deadlines, up to the batch size, each take their timeout step, and no other saga changes |
| `SagaTimeouts.Claim` | paymentcore/payout/coordinator.go:316-335 | the claim holds as many overdue sagas as the limit allows, ordered by deadline, and none left out is earlier |
| `SagaCoordinator.ExpiryPostpones` | paymentcore/payout/coordinator.go:342-362 | every claimed saga leaves with a deadline after the clock or with none, and no other deadline changes |
| `SagaTimeouts.PostponedLeavesTheRest` | paymentcore/payout/coordinator.go:316-319 | what is overdue after a call is exactly what was overdue and not claimed |
| `SagaTimeouts.SagasDrain` | paymentcore/payout/coordinator.go:309-367 | at a fixed clock nothing is overdue iff at least ceil(k / batch) calls have been made, and then each of the k sagas was claimed exactly once |
| `SagaTimeouts.ClaimsFollowDeadlines` | paymentcore/payout/coordinator.go:316-319 | across all calls, claims follow the deadlines |
| `SagaCoordinator.TimeoutWorker` | workers/timeout.go:16-34 | after any number of calls at one clock nothing is overdue iff they were at least ceil(k / batch); each claimed saga has taken exactly one timeout move, earliest deadline first, and no other saga has changed |
| `CommandWorker.EnqueueReply` | workers/handlers.go:223-261 | the reply and its public notice are written, in that order |
| `CommandWorker.RecordOutcome` | workers/handlers.go:162-195 | fails or returns a payment iff it is eligible, and reports ineligibility without a change |
| `CommandWorker.PostCommand` | workers/handlers.go:125-161 | a refused posting writes no reply and changes nothing |
| `CommandWorker.Handle` | workers/handlers.go:58-200 | every command does exactly what the protocol says, and it is committed, permanently rejected or retried exactly as its posting, eligibility or policy answer demands |
| `CommandWorker.PreparePayout` | paymentcore/payout/execute.go:95-135 | the attempt row is written before the first call, and a recorded answer is returned without one |
| `CommandWorker.Submit` | paymentcore/payout/execute.go:65-65 | a call carries the payment's key and quote and is on record |
| `CommandWorker.WriteOutcome` | paymentcore/payout/result.go:54-57 | an outcome is only written into a row that is still unresolved |
| `CommandWorker.RecordResponse` | paymentcore/payout/execute.go:66-92 | each kind of reply leaves the recorded status and the worker as the protocol says |
| `CommandWorker.ApplyOutcome` | paymentcore/payout/result.go:16-52 | the submission and at most one saga event commit together, or neither does |
| `WebhookService.EnqueueSagaResult` | settlement/blindpay/webhook.go:409-434 | a result is sent once per delivery, and only if the saga exists |
| `WebhookService.ApplyReturn` | settlement/blindpay/webhook.go:174-184 | status, journal, return row and notice commit together or the delivery rolls back |
| `WebhookService.ApplyDelivery` | settlement/blindpay/webhook.go:154-191 | a delivery about one payout does exactly what the protocol says |
| `WebhookService.Process` | settlement/blindpay/webhook.go:115-191 | the payout with the delivered reference is updated and no other; an unmatched delivery changes nothing |
| `PaymentService.MakeQuote` | paymentcore/payout/quote.go:13-57 | a known key answers only an identical request; otherwise a usable, new provider quote is stored |
| `PaymentService.LookupPayment` | paymentcore/payout/create.go:210-232 | finds the payment of a key iff every term matches the request |
| `PaymentService.Accept` | paymentcore/payout/create.go:106-208 | accepts an open, unexpired, matching quote into exactly one new payment, and otherwise looks up, expires or refuses |
| `PaymentService.MakePayout` | paymentcore/payout/create.go:75-208 | a call that nothing interrupts: its two transactions are those of quoting and accepting; interrupted ones are the separate steps that RunAll executes |
| `PaymentService.SumRefunds` | paymentcore/payout/refund.go:79-83 | the loop computes the sum of the refunds whose payment has not failed |
| `PaymentService.RefundAllowed` | paymentcore/payout/refund.go:70-105 | allowed iff the payment is settled, the amount fits in what is left, and a given quote is open and matches |
| `PaymentService.MakeRefund` | paymentcore/payout/refund.go:29-151 | database and answer are those of refund creation |
| `PaymentSystem.Perform` | workers/handlers.go:58-280 | every transaction on a stored payment is the protocol step of that name |
| `PaymentSystem.RunAll` | workers/handlers.go:58-280 | any sequence of payout, pay-in, quote and refund transactions on a new database ends as a run of the protocols does, with every invariant in force and the books balanced |
| `PayinTheorems.PerformKeeps` | paymentcore/payin/coordinator.go:36-83 | every pay-in step keeps command order, saga, messages, cursor and ledger consistent |
| `PayinTheorems.RecordEndsExecution` | paymentcore/payin/coordinator.go:53-73 | nothing but payin.ledger.record is ever enqueued after the first payin.ledger.record |
| `PayinTheorems.SucceededIsFinal` | paymentcore/payin/result.go:76-83 | once a pay-in has succeeded no later step changes its status, and it has exactly its one journal |
| `PayinTheorems.ReachedSuccessIsFinal` | ledger/service.go:71-117 | the same from a fresh pay-in, over every run before and after |
| `PayinTheorems.SuccessMeansRecorded` | ledger/service.go:71-117 | succeeded iff the one journal exists; cash holds the amount exactly then; a completed saga or a succeeded notice implies it; the timeline ends in the status; a deadline exists iff the state can expire |
| `PayinTheorems.RefundsNeverHappen` | settlement/blindpay/payin.go:63-76 | no reachable pay-in, saga or event is refunded |
| `PayinReceipts.RecordFollowsReceipt` | paymentcore/payin/coordinator.go:53-73 | payin.ledger.record is only ever issued after the saga was told of the receipt, and then the reference is known or the pay-in has failed |
| `PayinReceipts.RecordCommitsIff` | ledger/service.go:71-85 | in every reachable state an issued record commits iff the status is received, else it changes nothing; a completed report cures it iff the pay-in has not failed |
| `PayinReceipts.RefusedRecordWaits` | ledger/service.go:83-85 | a refused record stays refused, with nothing recorded and no command consumed, until a completed report arrives, and for good after a failure |
| `PayinReceipts.ReportChangesIff` | settlement/blindpay/webhook.go:202-261 | a delivery changes a reachable pay-in iff it names its reference, reports anything but processing, says something new, and the pay-in has not failed |
| `PayinReceipts.ProgressReportsAreLost` | settlement/blindpay/webhook.go:202-221 | leaving every processing report out of a run changes nothing |
| `PayinReceipts.LateResultOverwritesReport` | paymentcore/payin/result.go:76-83 | a report between executing and applying is overwritten by the applied result, though the saga has been told of it |
| `PayinReceipts.RedeliveryUndoesSuccess` | paymentcore/payin/result.go:59-101 | past the inbox, any payin.execute or payin.fail delivered to any recorded pay-in would take it out of succeeded and leave its journal |
| `PayinExamples.RedeliveryWouldUndoSuccess` | paymentcore/payin/result.go:59-101 | a run that records its pay-in, with the consumed command that would undo it |
| `PayinExamples.RecordIsRefused` | ledger/service.go:83-85 | a run in which the reported receipt is overwritten and the record is refused |
| `PayinCauses.ExecutionNeedsApproval` | paymentcore/payin/coordinator.go:53-73 | over every run: execution and recording are asked for, calls made and journals posted only after policy approved, and never while the saga awaits policy |
| `PayinCauses.UnapprovedPayinsRest` | workers/handlers.go:71-87 | over every run: a pay-in that policy never approves is never executed, recorded or succeeded |
| `PayinCauses.RecordNeedsCause` | paymentcore/payin/result.go:59-101 | over every run: unless an answer or report says the money arrived, recording is never asked for and nothing is posted |
| `PayinCauses.FailureNeedsCause` | paymentcore/payin/coordinator.go:126-169 | over every run: a pay-in fails only after a rejection, a policy or compliance wait that ran out, or the provider's own decline |
| `PayinCauses.HoldNeedsCause` | settlement/blindpay/webhook.go:202-261 | over every run: a pay-in is on hold only after the provider reported a hold |
| `PayinOutcomes.DeliveredEventsDecide` | paymentcore/payin/coordinator.go:36-96 | an event that the stage waits for decides the new stage, its timeout and its command; any other changes nothing |
| `PayinOutcomes.PolicyDecides` | workers/handlers.go:71-87 | at the wait for policy: an approval has the pay-in executed, a rejection fails it, an error leaves the command |
| `PayinOutcomes.ReportsDecide` | settlement/blindpay/webhook.go:202-261 | a first report to a waiting pay-in: completion leads to the record, failure or refund to failure, a hold to a hold |
| `PayinOutcomes.AnswersDecide` | paymentcore/payin/result.go:59-101 | a first answer to a waiting pay-in decides in the same way and passes its command |
| `PayinOutcomes.ArrivalIsRecorded` | ledger/service.go:71-117 | in every reachable state a record worked on money that arrived makes the payment succeed with its one journal |
| `PayinOutcomes.StoredAnswersAgree` | paymentcore/payin/execute.go:33-43 | a pay-in with a reference is answered from its row without a call, and the answer says what the row says |
| `PayinOutcomes.OpenCallsAreRepeated` | paymentcore/payin/execute.go:44-69 | in every reachable state a call lost to a crash, a fault, a retryable refusal or an unusable answer is made again |
| `PayinOutcomes.RefusalsFail` | workers/handlers.go:88-100 | in every reachable state a refusal for good fails the payment and passes its command |
| `PayinOutcomes.HeldReferencesAreRefused` | paymentcore/payin/result.go:76-78 | a result whose reference another pay-in holds is not applied, and its command stays |
| `PayinOutcomes.TimeoutsDecide` | paymentcore/payin/coordinator.go:150-164 | in every reachable state a passed deadline asks again, or for failure in the policy and compliance waits, and that failure takes effect whenever its turn comes |
| `PayinOutcomes.NoticesTellTheOutcome` | paymentcore/payin/events.go:12-18 | over every run the merchant has been told of success iff the pay-in succeeded, and of its failure if it failed |
| `PayinDelivery.DeliveredRunsAreProtocolRuns` | consumer/consumer.go:51-89 | a pay-in whose commands are taken from the cursor through the inbox ends as a run of the protocol, and the inbox holds exactly the commands that the run has consumed |
| `PayinDelivery.DeliveredSuccessIsFinal` | inbox/processor.go:53-109 | success and its journal are final for every delivered pay-in |
| `PayinService.Open` | paymentcore/payin/create.go:117-147 | a pay-in is inserted with its history and its two created events iff its id and key are unused |
| `PayinService.Handle` | paymentcore/payin/coordinator.go:36-96 | an accepted event makes its move, an invalid one changes nothing, and it says which |
| `PayinService.ExpireClaimed` | paymentcore/payin/coordinator.go:150-164 | a claimed saga keeps its state, gets a new deadline and its retry command |
| `PayinService.ApplyOutcome` | paymentcore/payin/result.go:59-101 | rows and messages are those of the applied result, or nothing changes when another pay-in holds the reference |
| `PayinService.InsertLines` | ledger/service.go:95-101 | the loop adds the two lines of the journal to the table shared with payouts and leaves debits equal to credits in every currency |
| `PayinService.Record` | ledger/service.go:71-117 | a received pay-in is recorded, with its lines inserted only the first time; any other is refused unchanged |
| `PayinService.PrepareExecution` | paymentcore/payin/execute.go:15-53 | a stored reference is answered without a call, and only an unsubmitted or unknown pay-in is submitted |
| `PayinService.WorkCommand` | workers/handlers.go:71-110 | every command does what the protocol says, and it says whether the inbox row commits with it |
| `PayinService.Work` | workers/handlers.go:71-110 | the command at the cursor is worked by an idle worker and passed only when it commits |
| `PayinService.Report` | paymentcore/payin/execute.go:54-69 | each kind of reply leaves status and worker as the protocol says |
| `PayinService.Apply` | workers/handlers.go:88-101 | the executed result is applied and its command passed, or the transaction rolls back |
| `PayinService.ApplyReport` | settlement/blindpay/webhook.go:202-261 | a report updates status and messages as the protocol says and never takes a payment out of succeeded |
| `PayinService.Process` | settlement/blindpay/webhook.go:202-216 | the pay-in with the delivered reference is updated and no other; an unmatched delivery changes nothing |
| `PayinService.Take` | workers/handlers.go:71-110 | every transaction on a stored pay-in is the protocol step of that name, and no other pay-in is touched |
| `PayinService.ExpiryPostpones` | paymentcore/payin/coordinator.go:150-164 | every claimed pay-in leaves with a deadline after the clock, and no other deadline changes, so pay-ins drain as payouts do |
| `PayinService.ExpireOnce` | paymentcore/payin/coordinator.go:126-169 | the overdue pay-ins with the earliest deadlines, up to the batch size, each take their timeout step, and no other pay-in changes |
| `PayinService.TimeoutWorker` | workers/timeout.go:16-34 | the same for pay-ins as for payouts: drained iff enough calls, one timeout step each, and no other saga changed |
| `DeliveryProofs.PerformKeeps` | outbox/relay.go:110-191 | claims, publications, failures, commits, rollbacks, redrives, effects and offset commits keep the delivery invariant |
| `DeliveryProofs.AppliedAtMostOnce` | inbox/processor.go:53-109 | in every run, with crashes anywhere, an event takes effect at most once |
| `DeliveryProofs.AppliedInOrder` | consumer/consumer.go:51-89 | effects follow the outbox order of their aggregate on a topic, and none comes before every earlier event of that aggregate and topic has taken effect or been permanently rejected |
| `DeliveryProofs.EarlierIsResolved` | consumer/consumer.go:51-89 | a message is at the cursor only when every earlier event of its aggregate and topic is resolved |
| `DeliveryProofs.PublicationsFollowSequence` | outbox/relay.go:117-136 | for any number of relays, an event reaches the wire only after every earlier event of its aggregate has |
| `DeliveryProofs.UnpublishedBlocksItsAggregate` | outbox/relay.go:126-133 | while an event is unpublished, in particular dead-lettered, nothing behind it in its aggregate is on the wire |
| `DeliveryProofs.OnlyOwnAggregateBlocks` | outbox/relay.go:126-133 | whether a row can be claimed depends on its own aggregate only |
| `DeliveryProofs.OneCandidatePerAggregate` | outbox/relay.go:106-136 | a batch holds at most one event of an aggregate |
| `DeliveryProofs.PendingRowsHaveAttemptsLeft` | outbox/relay.go:227-254 | a pending row has failed fewer than maxAttempts times since it was created or redriven |
| `DeliveryProofs.ClaimedRowsAreDue` | outbox/relay.go:117-136 | a relay claims only pending rows that are due, held by no other relay, and first in their aggregate |
| `DeliveryProofs.FailureDecides` | outbox/relay.go:227-271 | a failed publication is tried again between half the policy's delay and all of it, or given up, exactly by attempts and age |
| `DeliveryProofs.RedriveRevives` | outbox/relay.go:286-306 | a redriven row is claimable at once iff nothing earlier of its aggregate is unpublished, with all attempts and age restored |
| `Relay.Bus.SelectCandidates` | outbox/relay.go:117-136 | the claim is the first unlocked candidates in sequence order, up to the batch size |
| `Relay.Bus.RecordFailure` | outbox/relay.go:227-271 | dead-letters iff attempts or age are exhausted, else schedules the policy's jittered delay |
| `Relay.Bus.PublishNext` | outbox/relay.go:163-185 | one publication and its mark, or the rollback after a failed dead letter |
| `Relay.Bus.RelayOnce` | outbox/relay.go:110-191 | the run is the claim of the first candidates, one publication each with its own clock reading, and the commit unless a dead letter failed; it ends with its transaction closed |
| `Relay.Bus.RedriveRow` | outbox/relay.go:286-306 | succeeds iff the row is dead-lettered, and makes it a fresh pending row |
| `Relay.Bus.Process` | inbox/processor.go:53-109 | inbox row and effect commit together, a duplicate runs no handler, an error leaves neither |
| `Relay.Bus.ConsumeMessage` | consumer/consumer.go:51-89 | a message is retried while errors are transient, and its offset advances by one exactly when it was applied, known or permanently rejected |
| `Backoff.RelayDelay` | outbox/relay.go:255-262 | the loop computes min(maximum, initial * 2^(attempts-1)) for every configuration, without overflow |
| `Backoff.WebhookDelay` | notification/webhook.go:180-186 | the dispatcher's loop computes its own recurrence, with wrap-around |
| `Backoff.DispatcherFollowsPolicyIff` | notification/webhook.go:180-186 | the dispatcher follows the policy at every attempt iff no delay below the limit overflows on doubling; twice the maximum fitting in int64 suffices |
| `Backoff.DispatcherCanWrap` | notification/webhook.go:180-186 | a configuration whose second delay is negative |
| `Backoff.Jitter` | outbox/relay.go:100-102 | the jittered delay lies between half the delay and the delay |
| `Reconciler.JournalsNeverImbalanced` | reconciliation/reconciler.go:106-113 | no journal of a consistent payment is reported as imbalanced |
| `Reconciler.PayinJournalsNeverImbalanced` | reconciliation/reconciler.go:106-113 | nor is any journal of a consistent pay-in |
| `Reconciler.Reconciliation.Find` | reconciliation/reconciler.go:105-175 | the findings are exactly the detected discrepancies, each once, over payout and pay-in journals and stored submissions; a consistent database has no ledger imbalance |
| `Reconciler.Reconciliation.RunOnce` | reconciliation/reconciler.go:47-103 | after a run the open discrepancies are exactly its findings, the count is their number, and every pay-in and payout row is marked, as an exception iff a finding names its payment |
| `Reconciler.Reconciliation.Resolve` | reconciliation/reconciler.go:177-193 | closes exactly one open discrepancy, or reports that it is not open |
| `ReconciledRuns.DetectedIffFlagged` | reconciliation/reconciler.go:130-160 | a run detects exactly the payments whose stored rows are flagged |
| `ReconciledRuns.ReportsAreFlaggedUntilSettled` | reconciliation/reconciler.go:153-160 | a reported completion or failure is flagged until its event is delivered and the command worked, and not after |
| `ReconciledRuns.EarlyRefundsStayFlagged` | reconciliation/reconciler.go:153-160 | a payout refunded before it completed is flagged ever after |
| `ReconciledRuns.LateRefundsAreAccounted` | reconciliation/reconciler.go:153-160 | a refund after completion is accounted for in its own step and not flagged |
| `ReconciledRuns.AnswersAreFlaggedUntilSettled` | reconciliation/reconciler.go:130-137 | an applied answer is flagged iff it reports success, until the payment is settled |
| `ReconciledRuns.OperatorCompletionsAreFlagged` | reconciliation/reconciler.go:130-137 | a payment completed by an operator is flagged iff its last submission was not a success |
| `SchemaRegistry.UpcastingIsIdempotent` | eventbus/schema.go:69-101 | upcasting an upcasted event returns it unchanged |
| `SchemaRegistry.UpcastingThroughOlderAgrees` | eventbus/schema.go:69-101 | going through an older registry that shares the steps gives the same event and fails in the same cases |
| `SchemaRegistry.ChainSplits` | eventbus/schema.go:88-99 | a chain of upcasters is the composition of its two parts, cut anywhere |
| `SchemaRegistry.Registry.Register` | eventbus/schema.go:32-65 | accepts exactly complete chains for unregistered types, and keeps every registered chain complete |
| `SchemaRegistry.Registry.Upcast` | eventbus/schema.go:69-101 | never meets a missing step and returns the composition of the remaining upcasters at the latest version, or an error |

## Left out

- HTTP handlers, authentication, API keys, endpoint registration, metrics, configuration files, process startup, and the SQL and Kafka drivers.
- The BlindPay HTTP client, HMAC signatures and JSON: payloads are opaque values, and a delivery is modelled once it has been verified and parsed.
- paymentapi/local_settlement.go, a test seam that emits payout events without a provider.
- Pay-in quotes and the lookup of an existing pay-in by its quote: the same binding as for payouts; a pay-in is modelled from the rows it is inserted with.
- Audit texts, provider payloads, instructions and `updated_at` columns: written and never read by the modelled code.
- Progress: an invalid saga event is an error that the consumer retries without committing; it is modelled as no change, and nothing is claimed about when a blocked consumer resumes.
- The dispatcher's delivery table (claiming, HTTP delivery, redrive): its claim and redrive are simpler than the outbox relay's; only its delay loop is modelled.
- The loop that re-processes stored deliveries (settlement/blindpay/webhook.go:325-387): it only calls Process again, which is a step of the model for any stored delivery.
- The pay-in refund reversal journal (settlement/blindpay/webhook.go:259-277): not reached, as `PayinTheorems.RefundsNeverHappen` shows, and therefore not modelled.
- Relay.Bus.RelayOnce: is one relay running alone; interleavings of several relays are covered by the step model in `Delivery`.
