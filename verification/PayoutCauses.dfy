/** Why a payout is funded, paid, failed, sent back or held: every such outcome has its cause
    among the steps of the run. */
module PayoutCauses {
  import opened PaymentCore
  import opened Ledger
  import opened PayoutSaga
  import opened Provider
  import opened PayoutProtocol
  import opened PayoutInvariant
  import opened PayoutTheorems
  import opened PayoutOrder
  import opened PayoutProvider
  import opened PayoutStages

  // ---- News from the provider -------------------------------------------------

  /** What the provider can have said about a payout. */
  datatype News = Paid | Declined | SentBack | Held | Nothing

  function SaidByResult(result: ExecutionResult): News {
    match result.status
    case ExecutionSucceeded => Paid
    case ExecutionOnHold => Held
    case ExecutionFailed => if result.code == "refunded" then SentBack else Declined
    case ExecutionPending => Nothing
  }

  function SaidByStatus(status: SettlementStatus): News {
    match status
    case SettlementCompleted => Paid
    case SettlementOnHold => Held
    case SettlementRefunded => SentBack
    case SettlementFailed | SubmissionFailed => Declined
    case SubmissionPending | SubmissionUnknown | SettlementProcessing => Nothing
  }

  /** Only a refusal for good is news; any other error leaves the outcome open. */
  function SaidByReply(reply: ProviderReply): News {
    match reply
    case Answer(result) => SaidByResult(result)
    case Refusal(_, _, retryable) => if retryable then Nothing else Declined
    case Fault => Nothing
  }

  function SaidByEvent(event: SagaEvent): News {
    match event
    case ProviderCompleted => Paid
    case ProviderHeld => Held
    case ProviderReturned => SentBack
    case ProviderFailed => Declined
    case _ => Nothing
  }

  /** The step is the provider saying so, in its answer or in a delivery. */
  predicate Says(s: Step, n: News) {
    (s.Call? && SaidByReply(s.reply) == n) || (s.Notify? && SaidByStatus(s.status) == n)
  }

  predicate NeverSaid(steps: seq<Step>, n: News) {
    forall i | 0 <= i < |steps| :: !Says(steps[i], n)
  }

  /** The news is nowhere: not in a message, not in the payout row, not in the worker. */
  predicate Untold(r: Row, n: News) {
    && (forall i | 0 <= i < |r.outbox| :: TellsNot(r.outbox[i].body, n))
    && (r.payout.Some? ==> SaidByStatus(r.payout.value.status) != n)
    && (r.worker.Answered? ==> SaidByReply(r.worker.reply) != n)
    && (r.worker.Finished? ==> SaidByResult(r.worker.result) != n)
  }

  predicate TellsNot(m: Message, n: News) { m.Event? ==> SaidByEvent(m.event) != n }

  lemma SagaStepTells(t: Timeouts, r: Row, s: Step, n: News)
    requires Untold(r, n) && n != Nothing && (s.Deliver? || s.Expire? || s.Review?)
    ensures Untold(Perform(t, r, s), n)
  {}

  lemma ReplyTells(r: Row, posted: Row, reply: SagaEvent, reason: string, id: nat, n: News)
    requires Untold(r, n) && n != Nothing && SaidByEvent(reply) == Nothing
    requires posted.outbox == r.outbox && SameAttempt(r, posted)
    ensures Untold(Reply(posted, reply, reason, id), n)
  {}

  lemma WorkTells(r: Row, message: EventId, command: Command, reason: string, decision: Decision, id: nat, n: News)
    requires Untold(r, n) && n != Nothing
    ensures Untold(HandleCommand(r, message, command, reason, decision, id), n)
  {
    match command
    case PolicyEvaluate => if decision.Reject? { ReplyTells(r, r, PolicyRejected, decision.reason, id, n); } else { ReplyTells(r, r, PolicyApproved, reason, id, n); }
    case LedgerReserve => if Reserve(r).Posted? { ReplyTells(r, Reserve(r).row, FundsReserved, reason, id, n); }
    case LedgerRelease => if Release(r).Posted? { ReplyTells(r, Release(r).row, FundsReleased, reason, id, n); }
    case PaymentSettle => if Settle(r).Posted? { ReplyTells(r, Settle(r).row, PayoutCompleted, reason, id, n); }
    case PaymentFail | PaymentFailReserved => ReplyTells(r, r.(status := Failed, timeline := r.timeline + [Failed]), PayoutFailed, reason, id, n);
    case PaymentReturn => ReplyTells(r, r.(timeline := r.timeline + [Failed]), FundsReturned, reason, id, n);
    case SettlementExecute =>
  }

  /** What is stored of an answer says what the answer said. */
  lemma StoredSaysSame(result: ExecutionResult)
    ensures var status := ParseStatus(PersistedStatus(result)); status.Some? ==> SaidByStatus(status.value) == SaidByResult(result)
  {
    if result.status == ExecutionFailed && TrimSpace(result.code) in {"refunded", "submission_failed"} {
      StoredCode(result.code);
    }
  }

  lemma RecordTells(r: Row, n: News)
    requires Untold(r, n) && n != Nothing
    ensures Untold(RecordReply(r), n)
  {
    if r.worker.Answered? && r.worker.reply.Answer? {
      StoredSaysSame(r.worker.reply.result);
    }
  }

  lemma ApplyTells(r: Row, clash: bool, n: News)
    requires Untold(r, n) && n != Nothing
    ensures Untold(ApplyResult(r, clash), n)
  {}

  lemma SagaResultTells(r: Row, svix: string, status: SettlementStatus, clash: bool, n: News)
    requires Untold(r, n) && n != Nothing && SaidByStatus(status) != n && (Terminal(status) || status == SettlementOnHold)
    ensures Untold(SendSagaResult(r, svix, status, clash), n)
  {}

  lemma ReturnTells(r: Row, svix: string, clash: bool, n: News)
    requires Untold(r, n) && RecordReturn(r, svix).Posted?
    ensures Untold(SendOnce(RecordReturn(r, svix).row, FromDelivery(svix), clash, Public(NoticeReturned), "provider returned funds after completed payout"), n)
  {
    assert Untold(RecordReturn(r, svix).row, n);
  }

  lemma WebhookTells(r: Row, svix: string, status: SettlementStatus, clash: bool, n: News)
    requires Untold(r, n) && n != Nothing && SaidByStatus(status) != n
    ensures Untold(Webhook(r, svix, status, clash), n)
  {
    if r.payout.Some? {
      var updated := r.(payout := Some(r.payout.value.(status := status)));
      if Terminal(status) || status == SettlementOnHold {
        SagaResultTells(r, svix, status, clash, n);
        SagaResultTells(updated, svix, status, clash, n);
      }
      if RecordReturn(updated, svix).Posted? { ReturnTells(updated, svix, clash, n); }
    }
  }

  lemma StepTells(t: Timeouts, r: Row, s: Step, n: News)
    requires Untold(r, n) && n != Nothing && !Says(s, n)
    ensures Untold(Perform(t, r, s), n)
  {
    match s
    case Work(i, decision, id) =>
      if i < |r.outbox| && r.outbox[i].body.Order? {
        WorkTells(r, r.outbox[i].id, r.outbox[i].body.command, r.outbox[i].reason, decision, id, n);
      }
    case Call(reply) =>
    case Record => RecordTells(r, n);
    case Apply(clash) => ApplyTells(r, clash, n);
    case Crash =>
    case Notify(svix, status, clash) => WebhookTells(r, svix, status, clash, n);
    case _ => SagaStepTells(t, r, s, n);
  }

  /** No saga hears news that the provider has not given. */
  lemma {:induction false} NewsIsNeverInvented(t: Timeouts, r: Row, steps: seq<Step>, n: News)
    requires Untold(r, n) && n != Nothing && NeverSaid(steps, n)
    ensures Untold(Run(t, r, steps), n)
    decreases |steps|
  {
    if steps != [] {
      assert !Says(steps[0], n);
      StepTells(t, r, steps[0], n);
      assert forall i | 0 <= i < |steps[1..]| :: steps[1..][i] == steps[i + 1];
      NewsIsNeverInvented(t, Perform(t, r, steps[0]), steps[1..], n);
    }
  }

  // ---- Causes -----------------------------------------------------------------

  /** What can become of a payout. */
  datatype Fate = Approval | Success | Failure | Reversal | Hold

  predicate Decides(r: Row, s: Step, approved: bool) {
    WorksOn(r, s, PolicyEvaluate) && (if approved then s.decision.Approve? else s.decision.Reject?)
  }

  predicate Reviews(s: Step, action: ReviewAction) { s.Review? && s.action == action }

  /** The saga's time runs out before anything was asked of the provider. */
  predicate ExpiresEarly(r: Row, s: Step) {
    s.Expire? && r.saga.Some? && (r.saga.value.state == AwaitingPolicy || r.saga.value.state == AwaitingLedger)
  }

  /** The steps that can bring an outcome about. */
  predicate Causes(r: Row, s: Step, o: Fate) {
    match o
    case Approval => Decides(r, s, true)
    case Success => Says(s, Paid) || Reviews(s, CompleteReview)
    case Failure =>
      || Decides(r, s, false) || ExpiresEarly(r, s) || Says(s, Declined) || Says(s, SentBack)
      || Reviews(s, FailReview) || Reviews(s, ReturnReview)
    case Reversal => Says(s, SentBack) || Reviews(s, ReturnReview)
    case Hold => Says(s, Held)
  }

  /** No step of the run causes the outcome. */
  predicate Uncaused(t: Timeouts, r: Row, steps: seq<Step>, o: Fate)
    decreases |steps|
  {
    steps == [] || (!Causes(r, steps[0], o) && Uncaused(t, Perform(t, r, steps[0]), steps[1..], o))
  }

  predicate Silent(outbox: seq<OutboxEvent>, event: SagaEvent) {
    forall i | 0 <= i < |outbox| :: outbox[i].body != Event(event)
  }

  /** The states that an outcome leads into. */
  predicate Reaches(state: SagaState, o: Fate) {
    match o
    case Approval => state != AwaitingPolicy && !Unwinding(state)
    case Success => Settling(state)
    case Failure => Unwinding(state)
    case Reversal => state == Returning || state == Returned
    case Hold => state == OnHold || state == ManualReview
  }

  predicate Unheard(r: Row, o: Fate) {
    match o
    case Approval => Silent(r.outbox, PolicyApproved)
    case Success => Untold(r, Paid)
    case Failure => Untold(r, Declined) && Untold(r, SentBack) && Silent(r.outbox, PolicyRejected)
    case Reversal => Untold(r, SentBack)
    case Hold => Untold(r, Held)
  }

  /** The outcome has neither come about nor been heard of. */
  ghost predicate Spared(r: Row, o: Fate) {
    RowInv(r) && Unheard(r, o) && (r.saga.Some? ==> !Reaches(r.saga.value.state, o))
  }

  // ---- Policy events ----------------------------------------------------------

  lemma ReplyIsHeard(r: Row, posted: Row, reply: SagaEvent, reason: string, id: nat, event: SagaEvent)
    requires Silent(r.outbox, event) && posted.outbox == r.outbox && reply != event
    ensures Silent(Reply(posted, reply, reason, id).outbox, event)
  {}

  lemma WorkIsHeard(r: Row, message: EventId, command: Command, reason: string, decision: Decision, id: nat, event: SagaEvent)
    requires Silent(r.outbox, event) && (event == PolicyApproved || event == PolicyRejected)
    requires command == PolicyEvaluate ==> if event == PolicyApproved then !decision.Approve? else !decision.Reject?
    ensures Silent(HandleCommand(r, message, command, reason, decision, id).outbox, event)
  {
    match command
    case PolicyEvaluate => if decision.Reject? { ReplyIsHeard(r, r, PolicyRejected, decision.reason, id, event); } else if decision.Approve? { ReplyIsHeard(r, r, PolicyApproved, reason, id, event); }
    case LedgerReserve => if Reserve(r).Posted? { ReplyIsHeard(r, Reserve(r).row, FundsReserved, reason, id, event); }
    case LedgerRelease => if Release(r).Posted? { ReplyIsHeard(r, Release(r).row, FundsReleased, reason, id, event); }
    case PaymentSettle => if Settle(r).Posted? { ReplyIsHeard(r, Settle(r).row, PayoutCompleted, reason, id, event); }
    case PaymentFail | PaymentFailReserved => ReplyIsHeard(r, r.(status := Failed, timeline := r.timeline + [Failed]), PayoutFailed, reason, id, event);
    case PaymentReturn => ReplyIsHeard(r, r.(timeline := r.timeline + [Failed]), FundsReturned, reason, id, event);
    case SettlementExecute =>
  }

  lemma SagaResultIsHeard(r: Row, svix: string, status: SettlementStatus, clash: bool, event: SagaEvent)
    requires Silent(r.outbox, event) && SaidByEvent(event) == Nothing
    ensures Silent(SendSagaResult(r, svix, status, clash).outbox, event)
  {}

  lemma WebhookIsHeard(r: Row, svix: string, status: SettlementStatus, clash: bool, event: SagaEvent)
    requires Silent(r.outbox, event) && SaidByEvent(event) == Nothing
    ensures Silent(Webhook(r, svix, status, clash).outbox, event)
  {
    SagaResultIsHeard(r, svix, status, clash, event);
    if r.payout.Some? { SagaResultIsHeard(r.(payout := Some(r.payout.value.(status := status))), svix, status, clash, event); }
  }

  /** Only the policy decision itself says that policy approved or rejected. */
  lemma OnlyPolicyDecides(t: Timeouts, r: Row, s: Step, event: SagaEvent)
    requires Silent(r.outbox, event) && (event == PolicyApproved || event == PolicyRejected)
    requires !Decides(r, s, event == PolicyApproved)
    ensures Silent(Perform(t, r, s).outbox, event)
  {
    match s
    case Work(i, decision, id) =>
      if i < |r.outbox| && r.outbox[i].body.Order? {
        WorkIsHeard(r, r.outbox[i].id, r.outbox[i].body.command, r.outbox[i].reason, decision, id, event);
      }
    case Notify(svix, status, clash) => WebhookIsHeard(r, svix, status, clash, event);
    case _ =>
  }

  // ---- Moves into an outcome --------------------------------------------------

  lemma StepIsHeard(t: Timeouts, r: Row, s: Step, o: Fate)
    requires Unheard(r, o) && !Causes(r, s, o)
    ensures Unheard(Perform(t, r, s), o)
  {
    match o
    case Approval => OnlyPolicyDecides(t, r, s, PolicyApproved);
    case Success => StepTells(t, r, s, Paid);
    case Failure =>
      StepTells(t, r, s, Declined);
      StepTells(t, r, s, SentBack);
      OnlyPolicyDecides(t, r, s, PolicyRejected);
    case Reversal => StepTells(t, r, s, SentBack);
    case Hold => StepTells(t, r, s, Held);
  }

  /** No event that is in the outbox leads into an outcome that has not been heard of. */
  lemma EventSpares(t: Timeouts, r: Row, i: nat, o: Fate)
    requires Spared(r, o) && r.saga.Some? && i < |r.outbox| && r.outbox[i].body.Event?
    ensures var m := Transition(t, r.saga.value.state, r.outbox[i].body.event, r.outbox[i].reason);
      m.Some? ==> !Reaches(m.value.next, o)
  {
    var state, event, reason := r.saga.value.state, r.outbox[i].body.event, r.outbox[i].reason;
    BodiesIn(r.outbox, i);
    if Transition(t, state, event, reason).Some? {
      EventDecidesTarget(t, state, event, reason);
      AcceptsExactlyReplies(t, state, event, reason);
    }
  }

  lemma DeliverSpares(t: Timeouts, r: Row, i: nat, now: int, id: nat, o: Fate)
    requires Spared(r, o)
    ensures var saga := Perform(t, r, Deliver(i, now, id)).saga; saga.Some? ==> !Reaches(saga.value.state, o)
  {
    if i < |r.outbox| && r.outbox[i].body.Event? && r.saga.Some? { EventSpares(t, r, i, o); }
  }

  lemma OtherMovesSpare(t: Timeouts, r: Row, s: Step, o: Fate)
    requires Spared(r, o) && !Causes(r, s, o) && (s.Expire? || s.Review?)
    ensures var saga := Perform(t, r, s).saga; saga.Some? ==> !Reaches(saga.value.state, o)
  {
    if s.Expire? {
      if Overdue(r.saga, s.now) { TimeoutSpares(t, r.saga.value.state, o); }
    } else if r.saga.Some? && r.saga.value.state == ManualReview {
      ReviewSpares(t, s.action, s.note, o);
    }
  }

  lemma TimeoutSpares(t: Timeouts, state: SagaState, o: Fate)
    requires Expirable(state) && state != ReleasingLedger && !Reaches(state, o)
    requires o == Failure ==> state != AwaitingPolicy && state != AwaitingLedger
    ensures !Reaches(TimeoutMove(t, state).next, o)
  {}

  lemma ReviewSpares(t: Timeouts, action: ReviewAction, note: string, o: Fate)
    requires !Reaches(ManualReview, o)
    requires match o
      case Success => action != CompleteReview
      case Failure => action != FailReview && action != ReturnReview
      case Reversal => action != ReturnReview
      case _ => true
    ensures !Reaches(ReviewMove(t, action, note).next, o)
  {}

  lemma StepSpares(t: Timeouts, r: Row, s: Step, o: Fate)
    requires t.Valid() && Spared(r, o) && !Causes(r, s, o)
    ensures Spared(Perform(t, r, s), o)
  {
    PerformKeeps(t, r, s);
    StepIsHeard(t, r, s, o);
    match s
    case Deliver(i, now, id) => DeliverSpares(t, r, i, now, id, o);
    case Expire(_, _) | Review(_, _, _, _, _) => OtherMovesSpare(t, r, s, o);
    case _ => OthersKeepSaga(t, r, s);
  }

  lemma {:induction false} RunSpares(t: Timeouts, r: Row, steps: seq<Step>, o: Fate)
    requires t.Valid() && Spared(r, o) && Uncaused(t, r, steps, o)
    ensures Spared(Run(t, r, steps), o)
    decreases |steps|
  {
    if steps != [] {
      StepSpares(t, r, steps[0], o);
      RunSpares(t, Perform(t, r, steps[0]), steps[1..], o);
    }
  }

  lemma FreshIsSpared(r0: Row, o: Fate)
    requires Fresh(r0)
    ensures Spared(r0, o)
  {
    Reached(Timeouts(1, 1, 1, 1), r0, []);
  }

  // ---- Laws -------------------------------------------------------------------

  lemma NotHeard(r: Row, event: SagaEvent)
    requires Silent(r.outbox, event)
    ensures !Heard(r, event)
  {
    if Heard(r, event) { var i := BodiesIndex(r.outbox, Event(event)); }
  }

  /** A payout that policy never approves is never funded and never sent to the provider. */
  lemma FundingNeedsApproval(t: Timeouts, r0: Row, steps: seq<Step>)
    requires t.Valid() && Fresh(r0) && Uncaused(t, r0, steps, Approval)
    ensures var r := Run(t, r0, steps); Silent(r.outbox, PolicyApproved) && r.journals == [] && r.entries == [] && r.calls == [] && !r.worker.Calling?
  {
    FreshIsSpared(r0, Approval);
    RunSpares(t, r0, steps, Approval);
    NotHeard(Run(t, r0, steps), PolicyApproved);
  }

  predicate NeverOrdered(r: Row, c: Command) {
    forall i | 0 <= i < |r.outbox| :: r.outbox[i].body != Order(c)
  }

  lemma NotOrderedAnywhere(r: Row, c: Command)
    requires !Ordered(r, c)
    ensures NeverOrdered(r, c)
  {
    forall i | 0 <= i < |r.outbox| ensures r.outbox[i].body != Order(c) { BodiesIn(r.outbox, i); }
  }

  /** A payout that the provider never reports as paid and no operator completes is never
      settled: payment.settle is not even asked for. */
  lemma SuccessNeedsCause(t: Timeouts, r0: Row, steps: seq<Step>)
    requires t.Valid() && Fresh(r0) && Uncaused(t, r0, steps, Success)
    ensures var r := Run(t, r0, steps); r.status != Succeeded && NeverOrdered(r, PaymentSettle) && SucceededJournal !in r.journals
  {
    FreshIsSpared(r0, Success);
    RunSpares(t, r0, steps, Success);
    NotOrderedAnywhere(Run(t, r0, steps), PaymentSettle);
  }

  /** A payout fails only if policy rejects it, its time runs out before submission, the
      provider declines it or sends it back, or an operator decides so. */
  lemma FailureNeedsCause(t: Timeouts, r0: Row, steps: seq<Step>)
    requires t.Valid() && Fresh(r0) && Uncaused(t, r0, steps, Failure)
    ensures var r := Run(t, r0, steps);
      && r.status != Failed && NeverOrdered(r, PaymentFail) && NeverOrdered(r, PaymentFailReserved) && NeverOrdered(r, LedgerRelease)
      && ReleasedJournal !in r.journals
  {
    FreshIsSpared(r0, Failure);
    RunSpares(t, r0, steps, Failure);
    var r := Run(t, r0, steps);
    NotOrderedAnywhere(r, PaymentFail);
    NotOrderedAnywhere(r, PaymentFailReserved);
    NotOrderedAnywhere(r, LedgerRelease);
  }

  /** A reservation is released only if the provider sends the money back or an operator says
      that it did. */
  lemma ReversalNeedsCause(t: Timeouts, r0: Row, steps: seq<Step>)
    requires t.Valid() && Fresh(r0) && Uncaused(t, r0, steps, Reversal)
    ensures var r := Run(t, r0, steps); NeverOrdered(r, LedgerRelease) && ReleasedJournal !in r.journals
  {
    FreshIsSpared(r0, Reversal);
    RunSpares(t, r0, steps, Reversal);
    NotOrderedAnywhere(Run(t, r0, steps), LedgerRelease);
  }

  /** Only a hold reported by the provider leads to a hold or to a manual review. */
  lemma HoldNeedsCause(t: Timeouts, r0: Row, steps: seq<Step>)
    requires t.Valid() && Fresh(r0) && Uncaused(t, r0, steps, Hold)
    ensures var r := Run(t, r0, steps); r.saga.Some? ==> r.saga.value.state != OnHold && r.saga.value.state != ManualReview
  {
    FreshIsSpared(r0, Hold);
    RunSpares(t, r0, steps, Hold);
  }
}
