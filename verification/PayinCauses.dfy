/** Why a pay-in is executed, recorded, failed or held: every such outcome has its cause among
    the steps of the run. */
module PayinCauses {
  import opened PaymentCore
  import opened Ledger
  import opened Provider
  import opened PayinProtocol
  import opened PayinTheorems
  import opened PayinReceipts

  // ---- News from the provider -------------------------------------------------

  /** What the provider can have said about a pay-in. */
  datatype News = Arrived | Declined | Held | Nothing

  function SaidByExecution(status: ExecutionStatus): News {
    match status
    case ExecutionSucceeded => Arrived
    case ExecutionFailed => Declined
    case ExecutionOnHold => Held
    case ExecutionPending => Nothing
  }

  /** Only an answer and a refusal for good are news; any other error leaves the outcome open. */
  function SaidByReply(reply: ProviderReply): News {
    match reply
    case Answer(result) => SaidByExecution(result.status)
    case Refusal(_, _, retryable) => if retryable then Nothing else Declined
    case Fault => Nothing
  }

  function SaidByReport(reported: ProviderStatus): News {
    match reported
    case ReportsCompleted => Arrived
    case ReportsFailed | ReportsRefunded => Declined
    case ReportsOnHold => Held
    case ReportsProcessing => Nothing
  }

  function SaidByStatus(status: PayinStatus): News {
    match status
    case StatusReceived => Arrived
    case StatusFailed | StatusRefunded => Declined
    case StatusOnHold => Held
    case StatusCreated | StatusSubmitting | StatusUnknown | StatusProcessing => Nothing
  }

  function SaidByEvent(event: PayinEvent): News {
    match event
    case EventReceived => Arrived
    case EventFailed | EventRefunded => Declined
    case EventOnHold => Held
    case _ => Nothing
  }

  // ---- Causes -----------------------------------------------------------------

  /** The worker takes the policy command. */
  predicate Evaluates(p: Payin, s: Step) {
    s.Work? && p.worker == Idle && p.next < |p.commands| && p.commands[p.next].command == PolicyEvaluate
  }

  /** The saga's time runs out where nothing can be asked again. */
  predicate GivesUp(p: Payin, s: Step) {
    s.Timeout? && p.saga.Some? && (p.saga.value.state == PolicyWait || p.saga.value.state == HoldWait)
  }

  /** The steps that can bring news about: the provider's own, and for a failure also the
      policy decision and a wait that is given up. */
  predicate Brings(p: Payin, s: Step, n: News) {
    || (s.Call? && SaidByReply(s.reply) == n)
    || (s.Notify? && SaidByReport(s.reported) == n)
    || (n == Declined && ((Evaluates(p, s) && s.decision.Reject?) || GivesUp(p, s)))
  }

  predicate NeverBrought(p: Payin, steps: seq<Step>, n: News)
    decreases |steps|
  {
    steps == [] || (!Brings(p, steps[0], n) && NeverBrought(Perform(p, steps[0]), steps[1..], n))
  }

  /** The news is nowhere: not in an event, not in the row, not in the worker, and no failure
      has been asked for. */
  predicate Untold(p: Payin, n: News) {
    && (forall i | 0 <= i < |p.events| :: SaidByEvent(p.events[i].event) != n)
    && SaidByStatus(p.settlement) != n
    && (p.worker.Answered? ==> SaidByReply(p.worker.reply) != n)
    && (p.worker.Finished? ==> SaidByExecution(p.worker.result.status) != n)
    && (n == Declined ==> forall i | 0 <= i < |p.commands| :: p.commands[i].command != PayinFail)
  }

  lemma ResultTells(p: Payin, result: ExecutionResult, taken: bool, n: News)
    requires Untold(p, n) && n != Nothing && SaidByExecution(result.status) != n
    ensures ApplyResult(p, result, taken).Some? ==> Untold(ApplyResult(p, result, taken).value, n)
  {}

  lemma RecordTells(p: Payin, n: News)
    requires Untold(p, n) && n != Nothing
    ensures RecordPayin(p).Some? ==> Untold(RecordPayin(p).value, n)
  {}

  lemma HandleTells(p: Payin, message: CommandMessage, decision: Decision, id: nat, n: News)
    requires Untold(p, n) && n != Nothing
    requires n == Declined ==> message.command != PayinFail && !(message.command == PolicyEvaluate && decision.Reject?)
    ensures Untold(HandleCommand(p, message, decision, id), n)
  {
    match message.command
    case PolicyEvaluate => if decision.Reject? { ResultTells(p, FailedResult("", decision.reason), false, n); }
    case PayinExecute =>
    case LedgerRecord => RecordTells(p, n);
    case PayinFail => ResultTells(p, FailedResult("", message.reason), false, n);
  }

  lemma WebhookTells(p: Payin, reported: ProviderStatus, n: News)
    requires Untold(p, n) && n != Nothing && SaidByReport(reported) != n
    ensures Untold(Webhook(p, reported), n)
  {}

  lemma StepTells(p: Payin, s: Step, n: News)
    requires Untold(p, n) && n != Nothing && !Brings(p, s, n)
    ensures Untold(Perform(p, s), n)
  {
    match s
    case Work(decision, id) =>
      if p.worker == Idle && p.next < |p.commands| { HandleTells(p, p.commands[p.next], decision, id, n); }
    case Apply(taken) => if p.worker.Finished? { ResultTells(p, p.worker.result, taken, n); }
    case Notify(reference, reported) => WebhookTells(p, reported, n);
    case _ =>
  }

  lemma {:induction false} NewsIsNeverInvented(p: Payin, steps: seq<Step>, n: News)
    requires Untold(p, n) && n != Nothing && NeverBrought(p, steps, n)
    ensures Untold(Run(p, steps), n)
    decreases |steps|
  {
    if steps != [] {
      StepTells(p, steps[0], n);
      NewsIsNeverInvented(Perform(p, steps[0]), steps[1..], n);
    }
  }

  // ---- Policy -----------------------------------------------------------------

  ghost predicate Approved(events: seq<SagaMessage>) {
    exists i :: 0 <= i < |events| && events[i].event == EventApproved
  }

  predicate PastPolicy(state: PayinState) {
    state == ExecutionWait || state == ProviderWait || state == HoldWait || state == LedgerWait || state == SagaCompleted
  }

  /** Execution and recording are only asked for past an approval. */
  ghost predicate PolicyFits(p: Payin) {
    && (p.saga.None? ==> p.commands == [])
    && (p.saga.Some? && PastPolicy(p.saga.value.state) ==> Approved(p.events))
    && (forall i | 0 <= i < |p.commands| && (p.commands[i].command == PayinExecute || p.commands[i].command == LedgerRecord) ::
          Approved(p.events) && p.saga.value.state != PolicyWait)
    && (p.worker != Idle ==> Approved(p.events))
    && (PayinJournal in p.journals ==> Approved(p.events))
  }

  lemma ApprovedLasts(events: seq<SagaMessage>, events': seq<SagaMessage>)
    requires events <= events'
    ensures Approved(events) ==> Approved(events')
  {
    if Approved(events) {
      var i :| 0 <= i < |events| && events[i].event == EventApproved;
      assert events'[i].event == EventApproved;
    }
  }

  lemma MovePastPolicy(state: PayinState, event: PayinEvent)
    requires Transition(state, event).To?
    ensures PastPolicy(Transition(state, event).state) ==> PastPolicy(state) || (state == PolicyWait && event == EventApproved)
    ensures Transition(state, event).state != PolicyWait
    ensures Transition(state, event).command.Some? ==>
      PastPolicy(Transition(state, event).state) && (Transition(state, event).command == Some(PayinExecute) || Transition(state, event).command == Some(LedgerRecord))
  {}

  lemma DeliverFitsPolicy(p: Payin, i: nat, now: int)
    requires PolicyFits(p)
    ensures PolicyFits(Perform(p, Deliver(i, now)))
  {
    if i < |p.events| && p.saga.Some? && Transition(p.saga.value.state, p.events[i].event).To? {
      MovePastPolicy(p.saga.value.state, p.events[i].event);
    }
  }

  lemma TimeoutFitsPolicy(p: Payin, now: int)
    requires PolicyFits(p)
    ensures PolicyFits(Perform(p, Timeout(now)))
  {}

  /** Everything but the saga's own moves only adds events. */
  lemma OthersFitPolicy(p: Payin, p': Payin)
    requires PolicyFits(p) && p.events <= p'.events && p'.saga == p.saga && p'.commands == p.commands
    requires p'.worker != Idle ==> p.worker != Idle || Approved(p.events)
    requires PayinJournal in p'.journals ==> PayinJournal in p.journals || Approved(p.events)
    ensures PolicyFits(p')
  {
    ApprovedLasts(p.events, p'.events);
  }

  predicate SameSaga(p: Payin, p': Payin) { p.events <= p'.events && p'.saga == p.saga && p'.commands == p.commands }

  lemma ResultKeepsSaga(p: Payin, result: ExecutionResult, taken: bool)
    ensures var applied := ApplyResult(p, result, taken);
      applied.Some? ==> SameSaga(p, applied.value) && applied.value.worker == p.worker && applied.value.journals == p.journals
  {}

  lemma RecordKeepsSaga(p: Payin)
    ensures RecordPayin(p).Some? ==> SameSaga(p, RecordPayin(p).value) && RecordPayin(p).value.worker == p.worker
  {}

  lemma HandleFitsPolicy(p: Payin, decision: Decision, id: nat)
    requires PolicyFits(p) && p.worker == Idle && p.next < |p.commands|
    ensures PolicyFits(HandleCommand(p, p.commands[p.next], decision, id))
  {
    var message := p.commands[p.next];
    var p' := HandleCommand(p, message, decision, id);
    HandleKeepsSaga(p, message, decision, id);
    OthersFitPolicy(p, p');
  }

  lemma HandleKeepsSaga(p: Payin, message: CommandMessage, decision: Decision, id: nat)
    ensures var p' := HandleCommand(p, message, decision, id);
      && SameSaga(p, p') && (p'.worker != p.worker ==> message.command == PayinExecute)
      && (PayinJournal in p'.journals ==> PayinJournal in p.journals || message.command == LedgerRecord)
  {
    match message.command
    case PolicyEvaluate => if decision.Reject? { ResultKeepsSaga(p, FailedResult("", decision.reason), false); }
    case PayinExecute =>
    case LedgerRecord => RecordKeepsSaga(p);
    case PayinFail => ResultKeepsSaga(p, FailedResult("", message.reason), false);
  }

  lemma StepFitsPolicy(p: Payin, s: Step)
    requires PolicyFits(p)
    ensures PolicyFits(Perform(p, s))
  {
    match s
    case Deliver(i, now) => DeliverFitsPolicy(p, i, now);
    case Timeout(now) => TimeoutFitsPolicy(p, now);
    case Work(decision, id) => if p.worker == Idle && p.next < |p.commands| { HandleFitsPolicy(p, decision, id); }
    case Notify(reference, reported) =>
      WebhookTouches(p, reported);
      WebhookAddsEvents(p, reported);
      OthersFitPolicy(p, Perform(p, s));
    case _ => ExecutionFitsPolicy(p, s);
  }

  lemma WebhookAddsEvents(p: Payin, reported: ProviderStatus)
    ensures p.events <= Webhook(p, reported).events
  {}

  lemma ExecutionFitsPolicy(p: Payin, s: Step)
    requires PolicyFits(p) && (s.Call? || s.Report? || s.Apply? || s.Crash?)
    ensures PolicyFits(Perform(p, s))
  {
    if s.Apply? && p.worker.Finished? { ResultKeepsSaga(p, p.worker.result, s.taken); }
    OthersFitPolicy(p, Perform(p, s));
  }

  lemma {:induction false} RunFitsPolicy(p: Payin, steps: seq<Step>)
    requires PolicyFits(p)
    ensures PolicyFits(Run(p, steps))
    decreases |steps|
  {
    if steps != [] {
      StepFitsPolicy(p, steps[0]);
      RunFitsPolicy(Perform(p, steps[0]), steps[1..]);
    }
  }

  /** Over every run: an execution or a record is only asked for, a provider call only under
      way, and a journal only posted once policy has approved; and while a saga awaits policy
      neither has been asked for. */
  lemma ExecutionNeedsApproval(p0: Payin, steps: seq<Step>)
    requires Fresh(p0)
    ensures var p := Run(p0, steps);
      && (forall i | 0 <= i < |p.commands| && (p.commands[i].command == PayinExecute || p.commands[i].command == LedgerRecord) ::
            Approved(p.events) && p.saga.Some? && p.saga.value.state != PolicyWait)
      && (p.worker != Idle || p.journals != [] ==> Approved(p.events))
  {
    RunFitsPolicy(p0, steps);
    Reached(p0, steps);
  }

  predicate Approves(p: Payin, s: Step) { Evaluates(p, s) && s.decision == Approve }

  predicate NeverApproved(p: Payin, steps: seq<Step>)
    decreases |steps|
  {
    steps == [] || (!Approves(p, steps[0]) && NeverApproved(Perform(p, steps[0]), steps[1..]))
  }

  lemma EmitApproves(p: Payin, id: MessageId, event: PayinEvent, reason: string)
    requires event != EventApproved
    ensures Approved(Emit(p, id, event, reason).events) ==> Approved(p.events)
  {}

  lemma ResultApproves(p: Payin, result: ExecutionResult, taken: bool)
    ensures ApplyResult(p, result, taken).Some? && Approved(ApplyResult(p, result, taken).value.events) ==> Approved(p.events)
  {
    var settlement := NormalizeStatus(result.status);
    var status := PaymentStateFor(settlement);
    var updated := p.(reference := result.reference, settlement := settlement, status := status, timeline := p.timeline + [status]);
    EmitApproves(updated, OfResult(settlement), EventFor(settlement), OrElse(result.message, result.code));
  }

  lemma WebhookApproves(p: Payin, reported: ProviderStatus)
    ensures Approved(Webhook(p, reported).events) ==> Approved(p.events)
  {}

  lemma HandleApproves(p: Payin, message: CommandMessage, decision: Decision, id: nat)
    requires message.command == PolicyEvaluate ==> !decision.Approve?
    ensures Approved(HandleCommand(p, message, decision, id).events) ==> Approved(p.events)
  {
    match message.command
    case PolicyEvaluate => if decision.Reject? { ResultApproves(p, FailedResult("", decision.reason), false); }
    case PayinFail => ResultApproves(p, FailedResult("", message.reason), false);
    case LedgerRecord =>
    case PayinExecute =>
  }

  lemma OnlyPolicyApproves(p: Payin, s: Step)
    requires !Approves(p, s)
    ensures Approved(Perform(p, s).events) ==> Approved(p.events)
  {
    match s
    case Work(decision, id) => if p.worker == Idle && p.next < |p.commands| { HandleApproves(p, p.commands[p.next], decision, id); }
    case Apply(taken) => if p.worker.Finished? { ResultApproves(p, p.worker.result, taken); }
    case Notify(reference, reported) => WebhookApproves(p, reported);
    case _ =>
  }

  lemma {:induction false} NothingApproved(p: Payin, steps: seq<Step>)
    requires !Approved(p.events) && NeverApproved(p, steps)
    ensures !Approved(Run(p, steps).events)
    decreases |steps|
  {
    if steps != [] {
      OnlyPolicyApproves(p, steps[0]);
      NothingApproved(Perform(p, steps[0]), steps[1..]);
    }
  }

  /** A pay-in that policy never approves is never executed and never recorded. */
  lemma UnapprovedPayinsRest(p0: Payin, steps: seq<Step>)
    requires Fresh(p0) && NeverApproved(p0, steps)
    ensures var p := Run(p0, steps);
      && p.worker == Idle && p.journals == [] && p.status != Succeeded
      && (forall i | 0 <= i < |p.commands| :: p.commands[i].command == PolicyEvaluate || p.commands[i].command == PayinFail)
  {
    NothingApproved(p0, steps);
    ExecutionNeedsApproval(p0, steps);
    Reached(p0, steps);
  }

  // ---- Laws -------------------------------------------------------------------

  /** A pay-in that the provider never reports as arrived is never recorded, and recording is
      not even asked for. */
  lemma RecordNeedsCause(p0: Payin, steps: seq<Step>)
    requires Fresh(p0) && NeverBrought(p0, steps, Arrived)
    ensures var p := Run(p0, steps);
      p.status != Succeeded && p.journals == [] && p.settlement != StatusReceived && forall i | 0 <= i < |p.commands| :: p.commands[i].command != LedgerRecord
  {
    NewsIsNeverInvented(p0, steps, Arrived);
    ReachedFits(p0, steps);
    var p := Run(p0, steps);
    assert !Heard(p.events);
    assert forall i | 0 <= i < |p.commands| :: !IsRecord(p.commands[i]);
  }

  ghost predicate Unfailed(p: Payin) {
    Untold(p, Declined) && p.status != Failed && (p.saga.Some? ==> p.saga.value.state != SagaFailed)
  }

  lemma ResultFails(p: Payin, result: ExecutionResult, taken: bool)
    requires SaidByExecution(result.status) != Declined
    ensures ApplyResult(p, result, taken).Some? ==> ApplyResult(p, result, taken).value.status != Failed
  {}

  lemma StepFails(p: Payin, s: Step)
    requires Unfailed(p) && !Brings(p, s, Declined)
    ensures Unfailed(Perform(p, s))
  {
    StepTells(p, s, Declined);
    match s
    case Deliver(i, now) =>
      if i < |p.events| && p.saga.Some? && Transition(p.saga.value.state, p.events[i].event).To? { EventDecidesTarget(p.saga.value.state, p.events[i].event); }
    case Timeout(now) =>
    case _ =>
      OthersKeepSaga(p, s);
      OthersFail(p, s);
  }

  lemma HandleFails(p: Payin, message: CommandMessage, decision: Decision, id: nat)
    requires p.status != Failed && message.command != PayinFail && !(message.command == PolicyEvaluate && decision.Reject?)
    ensures HandleCommand(p, message, decision, id).status != Failed
  {}

  lemma WebhookFails(p: Payin, reported: ProviderStatus)
    requires p.status != Failed && SaidByReport(reported) != Declined
    ensures Webhook(p, reported).status != Failed
  {}

  lemma OthersFail(p: Payin, s: Step)
    requires Untold(p, Declined) && p.status != Failed && !Brings(p, s, Declined) && !s.Deliver? && !s.Timeout?
    ensures Perform(p, s).status != Failed
  {
    match s
    case Work(decision, id) => if p.worker == Idle && p.next < |p.commands| { HandleFails(p, p.commands[p.next], decision, id); }
    case Apply(taken) => if p.worker.Finished? { ResultFails(p, p.worker.result, taken); }
    case Notify(reference, reported) => WebhookFails(p, reported);
    case _ =>
  }

  lemma OthersKeepSaga(p: Payin, s: Step)
    requires !s.Deliver? && !s.Timeout?
    ensures Perform(p, s).saga == p.saga
  {
    match s
    case Work(decision, id) => if p.worker == Idle && p.next < |p.commands| { HandleKeepsSaga(p, p.commands[p.next], decision, id); }
    case Apply(taken) => if p.worker.Finished? { ResultKeepsSaga(p, p.worker.result, taken); }
    case Notify(reference, reported) => WebhookTouches(p, reported);
    case _ =>
  }

  lemma {:induction false} RunFails(p: Payin, steps: seq<Step>)
    requires Unfailed(p) && NeverBrought(p, steps, Declined)
    ensures Unfailed(Run(p, steps))
    decreases |steps|
  {
    if steps != [] {
      StepFails(p, steps[0]);
      RunFails(Perform(p, steps[0]), steps[1..]);
    }
  }

  /** A pay-in fails only if policy rejects it, its policy or compliance wait runs out, or the
      provider declines it. */
  lemma FailureNeedsCause(p0: Payin, steps: seq<Step>)
    requires Fresh(p0) && NeverBrought(p0, steps, Declined)
    ensures var p := Run(p0, steps);
      p.status != Failed && p.settlement != StatusFailed && (p.saga.Some? ==> p.saga.value.state != SagaFailed)
  {
    RunFails(p0, steps);
  }

  ghost predicate Unheld(p: Payin) { Untold(p, Held) && (p.saga.Some? ==> p.saga.value.state != HoldWait) }

  lemma {:induction false} RunHolds(p: Payin, steps: seq<Step>)
    requires Unheld(p) && NeverBrought(p, steps, Held)
    ensures Unheld(Run(p, steps))
    decreases |steps|
  {
    if steps != [] {
      StepTells(p, steps[0], Held);
      StepHolds(p, steps[0]);
      RunHolds(Perform(p, steps[0]), steps[1..]);
    }
  }

  lemma StepHolds(p: Payin, s: Step)
    requires Unheld(p)
    ensures var saga := Perform(p, s).saga; saga.Some? ==> saga.value.state != HoldWait
  {
    match s
    case Deliver(i, now) =>
      if i < |p.events| && p.saga.Some? && Transition(p.saga.value.state, p.events[i].event).To? { EventDecidesTarget(p.saga.value.state, p.events[i].event); }
    case Timeout(now) =>
    case _ => OthersKeepSaga(p, s);
  }

  /** Only a hold that the provider reports leads to a hold. */
  lemma HoldNeedsCause(p0: Payin, steps: seq<Step>)
    requires Fresh(p0) && NeverBrought(p0, steps, Held)
    ensures var p := Run(p0, steps); p.settlement != StatusOnHold && (p.saga.Some? ==> p.saga.value.state != HoldWait)
  {
    RunHolds(p0, steps);
  }
}
