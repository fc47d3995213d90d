/** What becomes of a payout: in every reachable state, what a policy decision, a provider
    answer or report, an operator decision or a timeout leads to once its message has been
    delivered and the command that follows has been worked. */
module PayoutOutcomes {
  import opened PaymentCore
  import opened Ledger
  import opened PayoutSaga
  import opened Provider
  import opened PayoutProtocol
  import opened PayoutInvariant
  import opened PayoutTheorems
  import opened PayoutOrder
  import opened PayoutProvider
  import opened PayoutStages
  import opened PayoutSubmissions
  import opened PayoutCauses

  // ---- Working what has been asked for ----------------------------------------

  predicate InState(r: Row, state: SagaState) { r.saga.Some? && r.saga.value.state == state }

  /** r' has one message more: the command. */
  predicate Asks(r: Row, r': Row, c: Command) {
    |r'.outbox| == |r.outbox| + 1 && r'.outbox[..|r.outbox|] == r.outbox && r'.outbox[|r.outbox|].body == Order(c)
  }

  /** The command that was asked for last is worked. */
  function WorkLast(t: Timeouts, r: Row, id: nat): Row {
    if |r.outbox| == 0 then r else Perform(t, r, Work(|r.outbox| - 1, PolicyError, id))
  }

  lemma FundedIsProcessing(r: Row)
    requires RowInv(r) && r.saga.Some? && r.saga.value.state in {AwaitingSettlement, OnHold, ManualReview}
    ensures r.status == Processing && ProcessingJournal in r.journals && ReleasedJournal !in r.journals
  {}

  lemma SettleWorks(t: Timeouts, r: Row, id: nat)
    requires RowInv(r) && |r.outbox| > 0 && r.outbox[|r.outbox| - 1].body == Order(PaymentSettle)
    ensures WorkLast(t, r, id).status == Succeeded && SucceededJournal in WorkLast(t, r, id).journals
  {
    SettlePosts(r);
    SettleReplies(t, r, id);
  }

  lemma SettlePosts(r: Row)
    requires RowInv(r) && |r.outbox| > 0 && r.outbox[|r.outbox| - 1].body == Order(PaymentSettle)
    ensures Settle(r).Posted? && Settle(r).row.status == Succeeded && SucceededJournal in Settle(r).row.journals
  {
    BodiesIn(r.outbox, |r.outbox| - 1);
    SettleKeeps(r);
  }

  lemma SettleReplies(t: Timeouts, r: Row, id: nat)
    requires |r.outbox| > 0 && r.outbox[|r.outbox| - 1].body == Order(PaymentSettle) && Settle(r).Posted?
    ensures WorkLast(t, r, id).status == Settle(r).row.status && WorkLast(t, r, id).journals == Settle(r).row.journals
  {
    ReplyKeepsPosting(Settle(r).row, PayoutCompleted, r.outbox[|r.outbox| - 1].reason, id);
  }

  lemma ReplyKeepsPosting(r: Row, reply: SagaEvent, reason: string, id: nat)
    ensures Reply(r, reply, reason, id).status == r.status && Reply(r, reply, reason, id).journals == r.journals
  {}

  lemma FailWorks(t: Timeouts, r: Row, id: nat)
    requires RowInv(r) && |r.outbox| > 0
    requires r.outbox[|r.outbox| - 1].body == Order(PaymentFail) || r.outbox[|r.outbox| - 1].body == Order(PaymentFailReserved)
    ensures WorkLast(t, r, id).status == Failed
  {
    FailureTakesEffect(t, r, Work(|r.outbox| - 1, PolicyError, id));
  }

  lemma ReleaseWorks(t: Timeouts, r: Row, id: nat)
    requires r.status == Processing && |r.outbox| > 0 && r.outbox[|r.outbox| - 1].body == Order(LedgerRelease)
    ensures WorkLast(t, r, id).status == Processing && ReleasedJournal in WorkLast(t, r, id).journals
  {}

  // ---- Provider news ----------------------------------------------------------

  /** Where news takes a saga that waits for it. */
  function StageOf(n: News): SagaState {
    match n
    case Paid => SettlingPayment
    case Declined => SagaFailed
    case SentBack => Returning
    case Held => OnHold
    case Nothing => AwaitingSettlement
  }

  /** What the payment has become. */
  predicate Became(r: Row, n: News) {
    match n
    case Paid => r.status == Succeeded && SucceededJournal in r.journals
    case Declined => r.status == Failed
    case SentBack => r.status == Processing && ReleasedJournal in r.journals
    case Held | Nothing => r.status == Processing
  }

  /** The saga has taken the news in: it is in its stage, and working the command it has
      asked for makes the payment what the news says; a hold asks for nothing. */
  predicate Settles(t: Timeouts, r: Row, r': Row, n: News, id: nat) {
    InState(r', StageOf(n)) && if n == Held then r'.outbox == r.outbox && Became(r', n) else |r'.outbox| == |r.outbox| + 1 && Became(WorkLast(t, r', id), n)
  }

  /** What the saga asks for when it has heard the news. */
  predicate AsksFor(r: Row, r': Row, n: News) {
    match n
    case Paid => Asks(r, r', PaymentSettle)
    case Declined => Asks(r, r', PaymentFail) || Asks(r, r', PaymentFailReserved)
    case SentBack => Asks(r, r', LedgerRelease)
    case Held | Nothing => r'.outbox == r.outbox
  }

  lemma NewsMoves(t: Timeouts, r: Row, event: SagaEvent, reason: string, now: int, id: nat)
    requires SaidByEvent(event) != Nothing && r.saga.Some?
    requires r.saga.value.state == AwaitingSettlement || (r.saga.value.state == OnHold && event != ProviderHeld)
    ensures var r' := HandleEvent(t, r, event, reason, now, id);
      && r'.status == r.status && InState(r', StageOf(SaidByEvent(event))) && AsksFor(r, r', SaidByEvent(event))
      && (SaidByEvent(event) != Paid && reason != "" ==> r'.saga.value.failure == reason)
  {}

  /** Delivered news settles a saga that waits for it or is on hold. */
  lemma NewsSettles(t: Timeouts, r: Row, i: nat, n: News, now: int, id: nat, id': nat)
    requires t.Valid() && RowInv(r) && n != Nothing && r.saga.Some?
    requires r.saga.value.state == AwaitingSettlement || (r.saga.value.state == OnHold && n != Held)
    requires i < |r.outbox| && r.outbox[i].body.Event? && SaidByEvent(r.outbox[i].body.event) == n
    ensures Settles(t, r, Perform(t, r, Deliver(i, now, id)), n, id')
    ensures n != Paid && r.outbox[i].reason != "" ==> Perform(t, r, Deliver(i, now, id)).saga.value.failure == r.outbox[i].reason
  {
    NewsMoves(t, r, r.outbox[i].body.event, r.outbox[i].reason, now, id);
    PerformKeeps(t, r, Deliver(i, now, id));
    FundedIsProcessing(r);
    var r' := Perform(t, r, Deliver(i, now, id));
    match n
    case Paid => SettleWorks(t, r', id');
    case Declined => FailWorks(t, r', id');
    case SentBack => ReleaseWorks(t, r', id');
    case Held =>
  }

  // ---- Provider reports -------------------------------------------------------

  /** The provider can still report this about a payout that stands at `current`. */
  predicate Later(current: SettlementStatus, reported: SettlementStatus) {
    match current
    case SubmissionPending | SubmissionUnknown => reported in {SettlementProcessing, SettlementOnHold, SettlementCompleted, SettlementFailed, SettlementRefunded}
    case SettlementProcessing => reported in {SettlementOnHold, SettlementCompleted, SettlementFailed, SettlementRefunded}
    case SettlementOnHold => reported in {SettlementCompleted, SettlementFailed, SettlementRefunded}
    case _ => false
  }

  lemma ReportWrites(t: Timeouts, r: Row, svix: string, status: SettlementStatus)
    requires Referenced(r) && r.saga.Some? && svix != "" && !HasId(r.outbox, FromDelivery(svix))
    requires Later(r.payout.value.status, status) && SaidByStatus(status) != Nothing
    ensures var r' := Perform(t, r, Notify(svix, status, false));
      && r'.payout == Some(r.payout.value.(status := status)) && r'.saga == r.saga && r'.status == r.status
      && |r'.outbox| == |r.outbox| + 1 && r'.outbox[..|r.outbox|] == r.outbox
      && r'.outbox[|r.outbox|].body.Event? && SaidByEvent(r'.outbox[|r.outbox|].body.event) == SaidByStatus(status)
  {}

  /** In every reachable state with a submitted payout that waits for the provider, or is on
      hold, a new report of completion leads to success, of failure to failure, of a refund
      to the release of the reservation, and of a hold to a hold. */
  lemma ReportsDecide(t: Timeouts, r0: Row, steps: seq<Step>, svix: string, status: SettlementStatus, now: int, id: nat, id': nat)
    requires t.Valid() && Fresh(r0)
    requires var r := Run(t, r0, steps);
      && Referenced(r) && r.saga.Some? && svix != "" && !HasId(r.outbox, FromDelivery(svix))
      && Later(r.payout.value.status, status) && SaidByStatus(status) != Nothing
      && (r.saga.value.state == AwaitingSettlement || (r.saga.value.state == OnHold && status != SettlementOnHold))
    ensures var r := Run(t, r0, steps);
      var reported := Perform(t, r, Notify(svix, status, false));
      && reported.payout == Some(r.payout.value.(status := status)) && |reported.outbox| == |r.outbox| + 1
      && Settles(t, reported, Perform(t, reported, Deliver(|r.outbox|, now, id)), SaidByStatus(status), id')
  {
    Reached(t, r0, steps);
    var r := Run(t, r0, steps);
    var reported := Perform(t, r, Notify(svix, status, false));
    PerformKeeps(t, r, Notify(svix, status, false));
    ReportWrites(t, r, svix, status);
    NewsSettles(t, reported, |r.outbox|, SaidByStatus(status), now, id, id');
  }

  /** A final report that arrives again under another message id is passed on again, and
      changes nothing else. */
  lemma FinalReportIsResent(t: Timeouts, r: Row, svix: string)
    requires Referenced(r) && r.saga.Some? && svix != "" && !HasId(r.outbox, FromDelivery(svix))
    requires r.payout.value.status in {SettlementCompleted, SettlementFailed, SettlementRefunded}
    ensures var status := r.payout.value.status; var r' := Perform(t, r, Notify(svix, status, false));
      && r' == r.(outbox := r'.outbox) && |r'.outbox| == |r.outbox| + 1 && r'.outbox[..|r.outbox|] == r.outbox
      && r'.outbox[|r.outbox|].body.Event? && SaidByEvent(r'.outbox[|r.outbox|].body.event) == SaidByStatus(status)
  {}

  lemma RefundMoves(r: Row, svix: string)
    requires RowInv(r) && Referenced(r) && r.payout.value.status == SettlementCompleted && svix != "" && !HasId(r.outbox, FromDelivery(svix))
    ensures var r' := Webhook(r, svix, SettlementRefunded, false);
      if r.status != Succeeded then r' == r
      else
        && r'.payout == Some(r.payout.value.(status := SettlementRefunded)) && r'.status == Succeeded
        && r'.journals == r.journals + [ReturnJournal] && r'.entries == r.entries + Lines(ReturnJournal, r.amount, r.currency)
        && r'.returned == [Return(svix, r.amount, r.currency)]
        && |r'.outbox| == |r.outbox| + 1 && r'.outbox[|r.outbox|].body == Public(NoticeReturned)
  {}

  /** In every reachable state of a completed payout, a report of its refund is taken in iff the
      payment has already succeeded: then the return is posted for the whole amount, recorded
      once and announced; before that the report changes nothing. */
  lemma LateRefundsReturnIff(t: Timeouts, r0: Row, steps: seq<Step>, svix: string)
    requires t.Valid() && Fresh(r0) && svix != ""
    requires var r := Run(t, r0, steps);
      Referenced(r) && r.payout.value.status == SettlementCompleted && !HasId(r.outbox, FromDelivery(svix))
    ensures var r := Run(t, r0, steps); var r' := Perform(t, r, Notify(svix, SettlementRefunded, false));
      if r.status != Succeeded then r' == r
      else
        && r'.payout == Some(r.payout.value.(status := SettlementRefunded)) && r'.status == Succeeded
        && r'.journals == r.journals + [ReturnJournal] && r'.returned == [Return(svix, r.amount, r.currency)]
        && |r'.outbox| == |r.outbox| + 1 && r'.outbox[|r.outbox|].body == Public(NoticeReturned)
  {
    Reached(t, r0, steps);
    RefundMoves(Run(t, r0, steps), svix);
  }

  // ---- Provider answers -------------------------------------------------------

  lemma AnswerIsRecorded(r: Row, result: ExecutionResult)
    requires r.worker.Answered? && r.worker.reply == Answer(result) && result.Valid() && !Untrimmed(result)
    requires r.payout.Some? && Unresolved(r.payout.value.status)
    ensures var r' := RecordReply(r);
      && r'.worker == Finished(r.worker.command, result) && r'.payout.Some?
      && r'.payout.value.reference == result.reference && SaidByStatus(r'.payout.value.status) == SaidByResult(result)
      && r' == r.(payout := r'.payout, worker := r'.worker)
  {
    ReplayYieldsSameEvent(result);
    StoredSaysSame(result);
  }

  /** One new event, which carries the news and its reason. */
  predicate Tells(r: Row, r': Row, n: News, reason: string) {
    && |r'.outbox| == |r.outbox| + 1 && r'.outbox[..|r.outbox|] == r.outbox
    && r'.outbox[|r.outbox|].body.Event? && SaidByEvent(r'.outbox[|r.outbox|].body.event) == n && r'.outbox[|r.outbox|].reason == reason
  }

  /** Why a result is what it is: its message, or the code of a failure without one. */
  function Why(result: ExecutionResult): string {
    if result.message == "" && result.status == ExecutionFailed then result.code else result.message
  }

  /** The row after a result has been recorded and applied: it holds the reference and the
      status, one submission more, and an event if there is news. */
  predicate Taken(r: Row, r': Row, result: ExecutionResult)
    requires r.worker.Answered?
  {
    && r'.saga == r.saga && r'.payout.Some?
    && r'.payout.value.reference == result.reference && SaidByStatus(r'.payout.value.status) == SaidByResult(result)
    && r'.submissions == r.submissions + [Submission(r.worker.command, result.reference, result.status)]
    && if SaidByResult(result) == Nothing then r'.outbox == r.outbox else Tells(r, r', SaidByResult(result), Why(result))
  }

  lemma AnswerIsApplied(r: Row, command: EventId, result: ExecutionResult)
    requires r.worker == Finished(command, result) && !ReferenceTaken(r.submissions, result.reference)
    requires !HasSubmission(r.submissions, command) && !HasId(r.outbox, ResultOf(command))
    ensures var r' := ApplyResult(r, false);
      && r'.submissions == r.submissions + [Submission(command, result.reference, result.status)]
      && r' == r.(worker := Idle, submissions := r'.submissions, outbox := r'.outbox)
      && if SaidByResult(result) == Nothing then r'.outbox == r.outbox else Tells(r, r', SaidByResult(result), Why(result))
  {}

  lemma NothingSubmittedYet(r: Row)
    requires RowInv(r) && AnswersFit(r) && r.worker.Answered?
    ensures forall reference :: !ReferenceTaken(r.submissions, reference)
    ensures r.payout.Some? && Unresolved(r.payout.value.status)
  {}

  /** In every reachable state that waits for the provider, a storable answer to a command
      that has none yet is recorded with its reference and as one submission, and once its
      event is delivered the payment becomes what the answer says. */
  lemma AnswersDecide(t: Timeouts, r0: Row, steps: seq<Step>, result: ExecutionResult, now: int, id: nat, id': nat)
    requires t.Valid() && Fresh(r0)
    requires var r := Run(t, r0, steps);
      && r.worker.Answered? && r.worker.reply == Answer(result) && result.Valid() && !Untrimmed(result)
      && InState(r, AwaitingSettlement) && !HasSubmission(r.submissions, r.worker.command) && !HasId(r.outbox, ResultOf(r.worker.command))
    ensures var r := Run(t, r0, steps);
      var applied := Perform(t, Perform(t, r, Record), Apply(false));
      var moved := Perform(t, applied, Deliver(|r.outbox|, now, id));
      && Taken(r, applied, result)
      && (SaidByResult(result) != Nothing ==> Settles(t, applied, moved, SaidByResult(result), id'))
      && (result.status == ExecutionFailed ==> moved.saga.value.failure == if result.message != "" then result.message else result.code)
  {
    Reached(t, r0, steps);
    ReachedAnswers(t, r0, steps);
    var r := Run(t, r0, steps);
    AnswerIsTaken(t, r, result);
    RecordAndApplyKeep(t, r);
    var applied := Perform(t, Perform(t, r, Record), Apply(false));
    if SaidByResult(result) != Nothing { NewsSettles(t, applied, |r.outbox|, SaidByResult(result), now, id, id'); }
  }

  /** Recording and applying an answer. */
  lemma AnswerIsTransacted(r: Row, result: ExecutionResult)
    requires RowInv(r) && AnswersFit(r)
    requires r.worker.Answered? && r.worker.reply == Answer(result) && result.Valid() && !Untrimmed(result)
    requires !HasSubmission(r.submissions, r.worker.command) && !HasId(r.outbox, ResultOf(r.worker.command))
    ensures Taken(r, ApplyResult(RecordReply(r), false), result)
  {
    NothingSubmittedYet(r);
    AnswerIsRecorded(r, result);
    AnswerIsApplied(RecordReply(r), r.worker.command, result);
  }

  lemma AnswerIsTaken(t: Timeouts, r: Row, result: ExecutionResult)
    requires RowInv(r) && AnswersFit(r)
    requires r.worker.Answered? && r.worker.reply == Answer(result) && result.Valid() && !Untrimmed(result)
    requires !HasSubmission(r.submissions, r.worker.command) && !HasId(r.outbox, ResultOf(r.worker.command))
    ensures Taken(r, Perform(t, Perform(t, r, Record), Apply(false)), result)
  {
    AnswerIsTransacted(r, result);
    assert Perform(t, Perform(t, r, Record), Apply(false)) == ApplyResult(RecordReply(r), false);
  }

  lemma RecordAndApplyKeep(t: Timeouts, r: Row)
    requires t.Valid() && RowInv(r)
    ensures RowInv(Perform(t, Perform(t, r, Record), Apply(false)))
  {
    PerformKeeps(t, r, Record);
    PerformKeeps(t, Perform(t, r, Record), Apply(false));
  }

  // ---- Provider errors --------------------------------------------------------

  lemma ErrorIsRecorded(r: Row)
    requires r.worker.Answered? && !r.worker.reply.Answer? && r.payout.Some? && Unresolved(r.payout.value.status)
    ensures var r' := RecordReply(r);
      r' == r.(worker := r'.worker, payout := Some(r.payout.value.(status := if SaidByReply(r.worker.reply) == Declined then SubmissionFailed else SubmissionUnknown)))
    ensures RecordReply(r).worker == (match r.worker.reply
      case Refusal(message, code, retryable) =>
        if !retryable && code == "submission_failed" then Finished(r.worker.command, ExecutionResult("", ExecutionFailed, code, message)) else Idle
      case _ => Idle)
  {}

  /** An error that leaves the outcome open is followed by another call, with the same key and
      quote, as soon as a settlement.execute is worked again. */
  lemma OpenErrorsAreRetried(t: Timeouts, r0: Row, steps: seq<Step>, i: nat, decision: Decision, id: nat, reply: ProviderReply)
    requires t.Valid() && Fresh(r0)
    requires var r := Run(t, r0, steps);
      && r.worker.Answered? && !r.worker.reply.Answer? && SaidByReply(r.worker.reply) == Nothing && r.key != ""
      && i < |r.outbox| && r.outbox[i].body == Order(SettlementExecute)
    ensures var r := Run(t, r0, steps);
      var again := Perform(t, Perform(t, r, Record), Work(i, decision, id));
      && again.worker == Calling(r.outbox[i].id) && r.route.Some?
      && Perform(t, again, Call(reply)).calls == r.calls + [ExecuteRequest(r.key, r.route.value.providerQuote)]
  {
    Reached(t, r0, steps);
    ErrorIsRecorded(Run(t, r0, steps));
  }

  /** The provider has refused for good: no reference, and no call is under way. */
  predicate Closed(r: Row) {
    r.payout.Some? && r.payout.value.reference == "" && r.payout.value.status == SubmissionFailed && !r.worker.Calling? && !r.worker.Answered?
  }

  lemma ClosedStep(t: Timeouts, r: Row, s: Step)
    requires Closed(r)
    ensures Closed(Perform(t, r, s)) && Perform(t, r, s).calls == r.calls
  {
    match s
    case Work(i, decision, id) => WorkLeavesAttempt(t, r, i, decision, id);
    case Notify(svix, status, clash) => WebhookAdvances(r, svix, status, clash);
    case Call(_) | Record | Apply(_) | Crash =>
    case _ => SagaStepsLeaveAttempt(t, r, s);
  }

  lemma {:induction false} ClosedForever(t: Timeouts, r: Row, steps: seq<Step>)
    requires Closed(r)
    ensures Closed(Run(t, r, steps)) && Run(t, r, steps).calls == r.calls
    decreases |steps|
  {
    if steps != [] {
      ClosedStep(t, r, steps[0]);
      ClosedForever(t, Perform(t, r, steps[0]), steps[1..]);
    }
  }

  /** A refusal for good ends all calls. */
  lemma FinalRefusalsAreFinal(t: Timeouts, r0: Row, steps: seq<Step>, later: seq<Step>)
    requires t.Valid() && Fresh(r0)
    requires var r := Run(t, r0, steps); r.worker.Answered? && !r.worker.reply.Answer? && SaidByReply(r.worker.reply) == Declined
    ensures var r := Run(t, r0, steps); var r' := Run(t, Perform(t, r, Record), later);
      r'.calls == r.calls && r'.payout.Some? && r'.payout.value.status == SubmissionFailed
  {
    Reached(t, r0, steps);
    ErrorIsRecorded(Run(t, r0, steps));
    ClosedForever(t, Perform(t, Run(t, r0, steps), Record), later);
  }

  lemma RefusalIsTaken(t: Timeouts, r: Row, message: string)
    requires RowInv(r) && r.worker.Answered? && r.worker.reply == Refusal(message, "submission_failed", false)
    requires !HasSubmission(r.submissions, r.worker.command) && !HasId(r.outbox, ResultOf(r.worker.command))
    ensures var applied := Perform(t, Perform(t, r, Record), Apply(false));
      && applied.saga == r.saga && Tells(r, applied, Declined, if message != "" then message else "submission_failed")
  {
    AttemptIsOpen(r);
    ErrorIsRecorded(r);
    var recorded := RecordReply(r);
    AnswerIsApplied(recorded, r.worker.command, ExecutionResult("", ExecutionFailed, "submission_failed", message));
    RefusalEvent(message);
  }

  lemma AttemptIsOpen(r: Row)
    requires RowInv(r) && r.worker.Answered?
    ensures r.payout.Some? && r.payout.value.reference == "" && Unresolved(r.payout.value.status)
  {}

  lemma RefusalEvent(message: string)
    ensures SaidByResult(ExecutionResult("", ExecutionFailed, "submission_failed", message)) == Declined
  {}

  /** One that names the submission as refused fails the payment. */
  lemma RefusedSubmissionsFail(t: Timeouts, r0: Row, steps: seq<Step>, message: string, now: int, id: nat, id': nat)
    requires t.Valid() && Fresh(r0)
    requires var r := Run(t, r0, steps);
      && r.worker.Answered? && r.worker.reply == Refusal(message, "submission_failed", false)
      && InState(r, AwaitingSettlement) && !HasSubmission(r.submissions, r.worker.command) && !HasId(r.outbox, ResultOf(r.worker.command))
    ensures var r := Run(t, r0, steps);
      var applied := Perform(t, Perform(t, r, Record), Apply(false));
      var moved := Perform(t, applied, Deliver(|r.outbox|, now, id));
      && |applied.outbox| == |r.outbox| + 1 && Settles(t, applied, moved, Declined, id')
      && moved.saga.value.failure == if message != "" then message else "submission_failed"
  {
    Reached(t, r0, steps);
    var r := Run(t, r0, steps);
    RefusalIsTaken(t, r, message);
    RecordAndApplyKeep(t, r);
    NewsSettles(t, Perform(t, Perform(t, r, Record), Apply(false)), |r.outbox|, Declined, now, id, id');
  }

  // ---- Operators --------------------------------------------------------------

  /** What an operator's decision says has happened. */
  function SaidByOperator(action: ReviewAction): News {
    match action
    case CompleteReview => Paid
    case FailReview => Declined
    case ReturnReview => SentBack
    case RetryReview => Held
  }

  lemma ReviewMoves(t: Timeouts, r: Row, action: ReviewAction, operator: string, note: string, now: int, id: nat)
    requires InState(r, ManualReview) && operator != "" && note != ""
    ensures var r' := ResolveReview(t, r, action, operator, note, now, id);
      && r'.status == r.status && InState(r', StageOf(SaidByOperator(action))) && AsksFor(r, r', SaidByOperator(action))
      && r'.saga.value.failure == note
  {}

  /** In every reachable manual review, "complete" leads to success, "fail" to failure,
      "return" to the release of the reservation, and "retry" back to the hold. */
  lemma ReviewsDecide(t: Timeouts, r0: Row, steps: seq<Step>, action: ReviewAction, operator: string, note: string, now: int, id: nat, id': nat)
    requires t.Valid() && Fresh(r0) && InState(Run(t, r0, steps), ManualReview) && operator != "" && note != ""
    ensures var r := Run(t, r0, steps);
      Settles(t, r, Perform(t, r, Review(action, operator, note, now, id)), SaidByOperator(action), id')
  {
    Reached(t, r0, steps);
    var r := Run(t, r0, steps);
    var r' := Perform(t, r, Review(action, operator, note, now, id));
    ReviewMoves(t, r, action, operator, note, now, id);
    PerformKeeps(t, r, Review(action, operator, note, now, id));
    FundedIsProcessing(r);
    match action
    case CompleteReview => SettleWorks(t, r', id');
    case FailReview => FailWorks(t, r', id');
    case ReturnReview => ReleaseWorks(t, r', id');
    case RetryReview =>
  }

  // ---- Timeouts ---------------------------------------------------------------

  lemma TimeoutMoves(t: Timeouts, r: Row, now: int, id: nat)
    requires r.saga.Some? && r.saga.value.deadline.Some? && r.saga.value.deadline.value <= now
    ensures var r' := ExpireSaga(t, r, now, id); var state := r.saga.value.state;
      && r'.status == r.status
      && match state
         case AwaitingPolicy | AwaitingLedger => InState(r', SagaFailed) && Asks(r, r', PaymentFail)
         case AwaitingSettlement => InState(r', state) && Asks(r, r', SettlementExecute)
         case OnHold => InState(r', ManualReview) && r'.outbox == r.outbox
         case Returning => InState(r', state) && Asks(r, r', LedgerRelease)
         case SettlingPayment => InState(r', state) && Asks(r, r', PaymentSettle)
         case _ => true
  {}

  /** In every reachable state whose deadline has passed: before submission the payment
      fails; while the provider is awaited the command is issued again; a hold goes to manual
      review; a release and a settlement are asked for again, and the settlement succeeds. */
  lemma TimeoutsDecide(t: Timeouts, r0: Row, steps: seq<Step>, now: int, id: nat, id': nat)
    requires t.Valid() && Fresh(r0)
    requires var r := Run(t, r0, steps); r.saga.Some? && r.saga.value.deadline.Some? && r.saga.value.deadline.value <= now
    ensures var r := Run(t, r0, steps); var r' := Perform(t, r, Expire(now, id));
      match r.saga.value.state
      case AwaitingPolicy | AwaitingLedger => InState(r', SagaFailed) && |r'.outbox| == |r.outbox| + 1 && WorkLast(t, r', id').status == Failed
      case AwaitingSettlement => InState(r', AwaitingSettlement) && Asks(r, r', SettlementExecute)
      case OnHold => InState(r', ManualReview) && r'.outbox == r.outbox
      case Returning => InState(r', Returning) && Asks(r, r', LedgerRelease)
      case SettlingPayment => InState(r', SettlingPayment) && |r'.outbox| == |r.outbox| + 1 && WorkLast(t, r', id').status == Succeeded
      case _ => false
  {
    Reached(t, r0, steps);
    var r := Run(t, r0, steps);
    var r' := Perform(t, r, Expire(now, id));
    TimeoutMoves(t, r, now, id);
    PerformKeeps(t, r, Expire(now, id));
    match r.saga.value.state
    case AwaitingPolicy | AwaitingLedger => FailWorks(t, r', id');
    case SettlingPayment => SettleWorks(t, r', id');
    case _ =>
  }

  // ---- Policy -----------------------------------------------------------------

  /** The step replies with one event. */
  predicate Replies(r: Row, r': Row, event: SagaEvent, reason: string) {
    && r' == r.(outbox := r'.outbox) && |r'.outbox| == |r.outbox| + 1 && r'.outbox[..|r.outbox|] == r.outbox
    && r'.outbox[|r.outbox|].body == Event(event) && r'.outbox[|r.outbox|].reason == reason
  }

  lemma PolicyReplies(t: Timeouts, r: Row, i: nat, decision: Decision, id: nat)
    requires i < |r.outbox| && r.outbox[i].body == Order(PolicyEvaluate)
    ensures var r' := Perform(t, r, Work(i, decision, id));
      match decision
      case Approve => Replies(r, r', PolicyApproved, r.outbox[i].reason)
      case Reject(why) => Replies(r, r', PolicyRejected, why)
      case PolicyError => r' == r
  {}

  lemma PolicyMoves(t: Timeouts, r: Row, event: SagaEvent, reason: string, now: int, id: nat)
    requires InState(r, AwaitingPolicy) && (event == PolicyApproved || event == PolicyRejected)
    ensures var r' := HandleEvent(t, r, event, reason, now, id);
      && r' == r.(saga := r'.saga, outbox := r'.outbox)
      && if event == PolicyApproved then InState(r', AwaitingLedger) && Asks(r, r', LedgerReserve)
         else InState(r', SagaFailed) && Asks(r, r', PaymentFail) && r'.saga.value.failure == (if reason != "" then reason else "policy rejected")
  {}

  lemma ReserveWorks(t: Timeouts, r: Row, id: nat)
    requires RowInv(r) && InState(r, AwaitingLedger) && r.journals == [] && |r.outbox| > 0 && r.outbox[|r.outbox| - 1].body == Order(LedgerReserve)
    ensures WorkLast(t, r, id).status == Processing && WorkLast(t, r, id).journals == [ProcessingJournal]
  {
    assert r.status == Created;
    ReplyKeepsPosting(Reserve(r).row, FundsReserved, r.outbox[|r.outbox| - 1].reason, id);
  }

  /** While a saga awaits policy, a rejection whose reply is delivered fails the payment with
      its reason, an approval gets the funds reserved, and an error decides nothing. */
  lemma PolicyDecides(t: Timeouts, r0: Row, steps: seq<Step>, i: nat, decision: Decision, id: nat, now: int, id': nat, id'': nat)
    requires t.Valid() && Fresh(r0) && InState(Run(t, r0, steps), AwaitingPolicy)
    requires var r := Run(t, r0, steps); i < |r.outbox| && r.outbox[i].body == Order(PolicyEvaluate)
    ensures var r := Run(t, r0, steps);
      var worked := Perform(t, r, Work(i, decision, id));
      var moved := Perform(t, worked, Deliver(|r.outbox|, now, id'));
      match decision
      case Approve => InState(moved, AwaitingLedger) && WorkLast(t, moved, id'').status == Processing && WorkLast(t, moved, id'').journals == [ProcessingJournal]
      case Reject(why) =>
        && InState(moved, SagaFailed) && moved.saga.value.failure == (if why != "" then why else "policy rejected")
        && WorkLast(t, moved, id'').status == Failed && WorkLast(t, moved, id'').journals == []
      case PolicyError => worked == r
  {
    Reached(t, r0, steps);
    var r := Run(t, r0, steps);
    var worked := Perform(t, r, Work(i, decision, id));
    PolicyReplies(t, r, i, decision, id);
    PerformKeeps(t, r, Work(i, decision, id));
    if decision != PolicyError {
      var moved := Perform(t, worked, Deliver(|r.outbox|, now, id'));
      PolicyMoves(t, worked, worked.outbox[|r.outbox|].body.event, worked.outbox[|r.outbox|].reason, now, id');
      PerformKeeps(t, worked, Deliver(|r.outbox|, now, id'));
      NothingPostedYet(r);
      if decision == Approve { ReserveWorks(t, moved, id''); } else { RejectionWorks(t, moved, id''); }
    }
  }

  lemma NothingPostedYet(r: Row)
    requires RowInv(r) && InState(r, AwaitingPolicy)
    ensures r.journals == []
  {}

  lemma RejectionWorks(t: Timeouts, r: Row, id: nat)
    requires RowInv(r) && r.journals == [] && |r.outbox| > 0 && r.outbox[|r.outbox| - 1].body == Order(PaymentFail)
    ensures WorkLast(t, r, id).status == Failed && WorkLast(t, r, id).journals == []
  {
    FailWorks(t, r, id);
    ReplyKeepsPosting(r.(status := Failed, timeline := r.timeline + [Failed]), PayoutFailed, r.outbox[|r.outbox| - 1].reason, id);
  }
}
