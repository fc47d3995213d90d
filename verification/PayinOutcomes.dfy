/** What becomes of a pay-in: in every reachable state, what a policy decision, a provider
    answer or report, or a timeout leads to once its message has been delivered and the
    command that follows has been worked. */
module PayinOutcomes {
  import opened PaymentCore
  import opened Ledger
  import opened Provider
  import opened PayinProtocol
  import opened PayinTheorems
  import opened PayinReceipts
  import opened PayinCauses

  predicate InState(p: Payin, state: PayinState) { p.saga.Some? && p.saga.value.state == state }

  /** An idle worker whose next command is the given one. */
  predicate AtCommand(p: Payin, c: PayinCommand) {
    p.worker == Idle && p.next < |p.commands| && p.commands[p.next].command == c
  }

  // ---- Delivered events -------------------------------------------------------

  /** What each stage waits for. */
  predicate Awaits(state: PayinState, event: PayinEvent) {
    match state
    case PolicyWait => event in {EventApproved, EventFailed, EventRefunded}
    case ExecutionWait | ProviderWait => event in {EventProcessing, EventOnHold, EventReceived, EventFailed, EventRefunded}
    case HoldWait => event in {EventProcessing, EventReceived, EventFailed, EventRefunded}
    case LedgerWait => event in {EventSucceeded, EventFailed, EventRefunded}
    case SagaCompleted => event == EventRefunded
    case SagaFailed => event == EventFailed
    case SagaRefunded => false
  }

  /** The command that a stage is entered with. */
  function EntryCommand(state: PayinState): seq<PayinCommand> {
    match state
    case PolicyWait => [PolicyEvaluate]
    case ExecutionWait => [PayinExecute]
    case LedgerWait => [LedgerRecord]
    case _ => []
  }

  function Budget(state: PayinState): int {
    match state
    case PolicyWait | ExecutionWait | ProviderWait | LedgerWait => 10 * 60 * 1_000_000_000
    case HoldWait => 24 * 60 * 60 * 1_000_000_000
    case SagaCompleted | SagaFailed | SagaRefunded => 0
  }

  function CommandsOf(messages: seq<CommandMessage>): seq<PayinCommand> {
    seq(|messages|, i requires 0 <= i < |messages| => messages[i].command)
  }

  /** The saga enters the event's stage with its budget and its command, and nothing else
      changes; or nothing changes at all. */
  predicate Moved(p: Payin, event: PayinEvent, p': Payin, now: int)
    requires p.saga.Some?
  {
    if !Awaits(p.saga.value.state, event) then p' == p
    else
      && InState(p', Target(event))
      && p'.saga.value.deadline == (if Budget(Target(event)) > 0 then Some(now + Budget(Target(event))) else None)
      && CommandsOf(p'.commands) == CommandsOf(p.commands) + EntryCommand(Target(event))
      && p' == p.(saga := p'.saga, commands := p'.commands)
  }

  lemma EventMoves(p: Payin, event: PayinEvent, reason: string, now: int)
    requires p.saga.Some?
    ensures Moved(p, event, HandleEvent(p, event, reason, now), now)
    ensures Awaits(p.saga.value.state, event) && reason != "" ==> HandleEvent(p, event, reason, now).saga.value.failure == reason
  {
    if event != EventCreated && Awaits(p.saga.value.state, event) {
      StageAccepts(p.saga.value.state, event);
    } else if event != EventCreated {
      StageRefuses(p.saga.value.state, event);
    }
  }

  lemma StageAccepts(state: PayinState, event: PayinEvent)
    requires Awaits(state, event)
    ensures var v := Transition(state, event);
      v.To? && v.state == Target(event) && (if v.command.Some? then [v.command.value] else []) == EntryCommand(Target(event))
  {
    match state
    case PolicyWait | LedgerWait | HoldWait =>
    case _ =>
  }

  lemma StageRefuses(state: PayinState, event: PayinEvent)
    requires !Awaits(state, event)
    ensures !Transition(state, event).To?
  {
    match state
    case PolicyWait | LedgerWait | HoldWait =>
    case _ =>
  }

  /** In every state, a delivered event that the stage waits for decides where the saga goes,
      how long it may stay and what is asked for; any other changes nothing. */
  lemma DeliveredEventsDecide(p: Payin, i: nat, now: int)
    requires i < |p.events| && p.saga.Some?
    ensures Moved(p, p.events[i].event, Perform(p, Deliver(i, now)), now)
    ensures Awaits(p.saga.value.state, p.events[i].event) && p.events[i].reason != "" ==>
              Perform(p, Deliver(i, now)).saga.value.failure == p.events[i].reason
  {
    EventMoves(p, p.events[i].event, p.events[i].reason, now);
  }

  // ---- News -------------------------------------------------------------------

  /** What a waiting saga and its payment become on the news. */
  predicate Became(p: Payin, n: News) {
    match n
    case Arrived => InState(p, LedgerWait) && p.status == Processing && p.settlement == StatusReceived
    case Declined => InState(p, SagaFailed) && p.status == Failed && p.settlement == StatusFailed
    case Held => InState(p, HoldWait) && p.status == Processing && p.settlement == StatusOnHold
    case Nothing => InState(p, ProviderWait) && p.status == Processing && p.settlement == StatusProcessing
  }

  /** The saga waits for the provider. */
  predicate Waits(p: Payin) { InState(p, ExecutionWait) || InState(p, ProviderWait) }

  /** One new event, which carries the news. */
  predicate Tells(p: Payin, p': Payin, n: News) {
    && |p'.events| == |p.events| + 1 && p'.events[..|p.events|] == p.events && p'.saga == p.saga && p'.commands == p.commands
    && (if n == Nothing then p'.events[|p.events|].event == EventProcessing else SaidByEvent(p'.events[|p.events|].event) == n)
  }

  /** After an answer or a report, the delivery of its event takes the saga to its stage; money
      that has arrived is then recorded by the command that was asked for. */
  lemma NewsSettles(p: Payin, n: News, now: int)
    requires Waits(p) && |p.events| > 0
    requires if n == Nothing then p.events[|p.events| - 1].event == EventProcessing else SaidByEvent(p.events[|p.events| - 1].event) == n
    ensures var p' := Perform(p, Deliver(|p.events| - 1, now));
      && (n == Arrived ==> InState(p', LedgerWait) && CommandsOf(p'.commands) == CommandsOf(p.commands) + [LedgerRecord])
      && (n == Declined ==> InState(p', SagaFailed) || p.events[|p.events| - 1].event == EventRefunded)
      && (n == Held ==> InState(p', HoldWait)) && (n == Nothing ==> InState(p', ProviderWait))
      && p' == p.(saga := p'.saga, commands := p'.commands)
  {
    DeliveredEventsDecide(p, |p.events| - 1, now);
  }

  lemma EmitAppends(p: Payin, id: MessageId, event: PayinEvent, reason: string)
    requires !HasEvent(p.events, id)
    ensures Emit(p, id, event, reason) == p.(events := p.events + [SagaMessage(id, event, reason)])
  {}

  lemma ReportIsTaken(p: Payin, reported: ProviderStatus)
    requires p.reference != "" && p.saga.Some? && p.status != Succeeded && p.settlement != StatusFailed && p.settlement != StatusRefunded
    requires SaidByReport(reported) != Nothing && SaidByStatus(p.settlement) != SaidByReport(reported)
    requires forall status :: !HasEvent(p.events, OfDelivery(p.reference, status))
    ensures var p' := Perform(p, Notify(p.reference, reported));
      && Tells(p, p', SaidByReport(reported)) && p'.events[|p.events|].event != EventRefunded
      && SaidByStatus(p'.settlement) == SaidByReport(reported) && p'.settlement != StatusRefunded
      && p'.status == (if SaidByReport(reported) == Declined then Failed else Processing)
      && p'.next == p.next && p'.worker == p.worker
  {
    var settlement := Lifecycle(reported).value;
    var status := PaymentStateFor(settlement);
    var updated := p.(settlement := settlement, status := status, timeline := p.timeline + [status]);
    EmitAppends(updated, OfDelivery(p.reference, settlement), EventFor(settlement), StatusText(reported));
    WebhookTouches(p, reported);
    ReportedStatus(p, reported);
  }

  lemma ReportedStatus(p: Payin, reported: ProviderStatus)
    requires p.saga.Some? && p.status != Succeeded && p.settlement != StatusFailed && p.settlement != StatusRefunded
    requires Lifecycle(reported).Some? && p.settlement != Lifecycle(reported).value
    ensures var settlement := Lifecycle(reported).value; var status := PaymentStateFor(settlement);
      var updated := p.(settlement := settlement, status := status, timeline := p.timeline + [status]);
      Webhook(p, reported) == Emit(updated, OfDelivery(p.reference, settlement), EventFor(settlement), StatusText(reported)).(notices := Webhook(p, reported).notices)
  {}

  /** A first report about a pay-in that waits for the provider: a completed one leads to the
      ledger wait and to a record, a failed or refunded one to failure, a hold to a hold. */
  lemma ReportsDecide(p: Payin, reported: ProviderStatus, now: int)
    requires p.reference != "" && Waits(p) && p.status != Succeeded && p.settlement != StatusFailed && p.settlement != StatusRefunded
    requires SaidByReport(reported) != Nothing && SaidByStatus(p.settlement) != SaidByReport(reported)
    requires forall status :: !HasEvent(p.events, OfDelivery(p.reference, status))
    ensures var told := Perform(p, Notify(p.reference, reported));
      |told.events| == |p.events| + 1 && Became(Perform(told, Deliver(|p.events|, now)), SaidByReport(reported))
  {
    ReportIsTaken(p, reported);
    ReportSettles(p, Perform(p, Notify(p.reference, reported)), SaidByReport(reported), now);
  }

  lemma ReportSettles(p: Payin, told: Payin, n: News, now: int)
    requires Waits(p) && n != Nothing && Tells(p, told, n) && told.events[|p.events|].event != EventRefunded
    requires SaidByStatus(told.settlement) == n && told.settlement != StatusRefunded && told.status == if n == Declined then Failed else Processing
    ensures Became(Perform(told, Deliver(|p.events|, now)), n)
  {
    NewsSettles(told, n, now);
  }

  lemma AnswerIsTaken(p: Payin, result: ExecutionResult)
    requires p.worker == Finished(result) && !HasEvent(p.events, OfResult(NormalizeStatus(result.status)))
    ensures var p' := Perform(p, Apply(false));
      && Tells(p, p', SaidByExecution(result.status)) && p'.events[|p.events|].event != EventRefunded
      && p'.events[|p.events|].reason == (if result.message != "" then result.message else result.code)
      && p'.status == (if SaidByExecution(result.status) == Declined then Failed else Processing)
      && SaidByStatus(p'.settlement) == SaidByExecution(result.status) && p'.settlement != StatusRefunded
      && (SaidByExecution(result.status) == Nothing ==> p'.settlement == StatusProcessing)
      && p'.reference == result.reference && p'.next == p.next + 1 && p'.worker == Idle
  {}

  /** The first usable answer of its kind to a pay-in that waits for the provider decides in
      the same way, and passes its command. */
  lemma AnswersDecide(p: Payin, result: ExecutionResult, now: int)
    requires Waits(p) && p.worker == Worker.Answered(Answer(result)) && result.Valid()
    requires !HasEvent(p.events, OfResult(NormalizeStatus(result.status)))
    ensures var applied := Perform(Perform(p, Report), Apply(false));
      && applied.reference == result.reference && applied.next == p.next + 1
      && |applied.events| == |p.events| + 1
      && var moved := Perform(applied, Deliver(|p.events|, now));
         && Became(moved, SaidByExecution(result.status))
         && (result.status == ExecutionFailed ==> moved.saga.value.failure == if result.message != "" then result.message else result.code)
  {
    var finished := Perform(p, Report);
    assert finished == p.(worker := Finished(result));
    AnswerIsTaken(finished, result);
    var applied := Perform(finished, Apply(false));
    NewsSettles(applied, SaidByExecution(result.status), now);
    DeliveredEventsDecide(applied, |p.events|, now);
  }

  /** A pay-in whose reference is known is answered from its row, without a call, and the
      answer says what the row says. */
  lemma StoredAnswersAgree(p: Payin, decision: Decision, id: nat)
    requires AtCommand(p, PayinExecute) && p.reference != ""
    ensures var worked := Perform(p, Work(decision, id));
      && worked == p.(worker := worked.worker) && worked.worker.Finished?
      && worked.worker.result.reference == p.reference && SaidByExecution(worked.worker.result.status) == SaidByStatus(p.settlement)
  {}

  /** Recording what has arrived makes the payment succeed. */
  lemma ArrivalIsRecorded(p0: Payin, steps: seq<Step>, decision: Decision, id: nat)
    requires Fresh(p0) && AtCommand(Run(p0, steps), LedgerRecord) && SaidByStatus(Run(p0, steps).settlement) == Arrived
    ensures var p' := Perform(Run(p0, steps), Work(decision, id)); p'.status == Succeeded && p'.journals == [PayinJournal]
  {
    Reached(p0, steps);
    RecordEffect(Run(p0, steps), decision, id);
  }

  // ---- Provider calls ---------------------------------------------------------

  /** A call is only under way for a submission without a reference. */
  predicate CallFits(p: Payin) {
    p.worker == Calling || p.worker.Answered? ==> p.reference == "" && p.settlement == StatusSubmitting && p.key != "" && p.providerQuote != ""
  }

  lemma CallStep(p: Payin, s: Step)
    requires CallFits(p)
    ensures CallFits(Perform(p, s))
  {
    match s
    case Work(decision, id) => if p.worker == Idle && p.next < |p.commands| { HandleCalls(p, p.commands[p.next], decision, id); }
    case Notify(reference, reported) => WebhookTouches(p, reported);
    case _ =>
  }

  lemma HandleCalls(p: Payin, message: CommandMessage, decision: Decision, id: nat)
    requires p.worker == Idle
    ensures CallFits(HandleCommand(p, message, decision, id))
  {
    HandleKeepsSaga(p, message, decision, id);
  }

  lemma {:induction false} CallRun(p: Payin, steps: seq<Step>)
    requires CallFits(p)
    ensures CallFits(Run(p, steps))
    decreases |steps|
  {
    if steps != [] {
      CallStep(p, steps[0]);
      CallRun(Perform(p, steps[0]), steps[1..]);
    }
  }

  /** A call whose outcome stays open, through a crash, a fault, a retryable refusal or an
      unusable answer, is made again when the command is worked again. */
  lemma OpenCallsAreRepeated(p0: Payin, steps: seq<Step>, s: Step, decision: Decision, id: nat)
    requires Fresh(p0)
    requires var p := Run(p0, steps);
      (s == Crash && (p.worker == Calling || p.worker.Answered?))
      || (s == Report && p.worker.Answered? && (if p.worker.reply.Answer? then !p.worker.reply.result.Valid() else SaidByReply(p.worker.reply) == Nothing))
    ensures var p := Run(p0, steps); var dropped := Perform(p, s);
      && AtCommand(dropped, PayinExecute) && dropped.next == p.next
      && Perform(dropped, Work(decision, id)).worker == Calling
  {
    CallRun(p0, steps);
    Reached(p0, steps);
  }

  /** A refusal for good is applied as a failure, whatever its code and whatever references
      other pay-ins hold, since it carries none. */
  lemma RefusalsFail(p0: Payin, steps: seq<Step>, taken: bool)
    requires Fresh(p0) && Run(p0, steps).worker.Answered? && !Run(p0, steps).worker.reply.Answer?
    requires SaidByReply(Run(p0, steps).worker.reply) == Declined
    ensures var p := Run(p0, steps); var applied := Perform(Perform(p, Report), Apply(taken));
      applied.status == Failed && applied.settlement == StatusFailed && applied.next == p.next + 1
  {
    CallRun(p0, steps);
    var reported := Perform(Run(p0, steps), Report);
    assert reported.worker.Finished? && reported.worker.result.reference == "" && reported.worker.result.status == ExecutionFailed;
    UnreferencedFails(reported, taken);
  }

  lemma UnreferencedFails(p: Payin, taken: bool)
    requires p.worker.Finished? && p.worker.result.reference == "" && p.worker.result.status == ExecutionFailed
    ensures var p' := Perform(p, Apply(taken)); p'.status == Failed && p'.settlement == StatusFailed && p'.next == p.next + 1
  {}

  /** A result whose reference another pay-in holds is not applied, and its command stays. */
  lemma HeldReferencesAreRefused(p: Payin)
    requires p.worker.Finished? && p.worker.result.reference != ""
    ensures Perform(p, Apply(true)) == p.(worker := Idle)
  {}

  // ---- Policy -----------------------------------------------------------------

  /** Policy decides while a saga waits for it: an approval has the pay-in executed, a
      rejection fails it, and an error leaves the command where it is. */
  lemma PolicyDecides(p: Payin, decision: Decision, id: nat, now: int)
    requires AtCommand(p, PolicyEvaluate) && InState(p, PolicyWait) && !HasEvent(p.events, OfResult(StatusFailed))
    ensures var worked := Perform(p, Work(decision, id));
      match decision
      case Approve =>
        var moved := Perform(worked, Deliver(|p.events|, now));
        && worked.next == p.next + 1 && InState(moved, ExecutionWait)
        && CommandsOf(moved.commands) == CommandsOf(p.commands) + [PayinExecute] && moved.status == p.status
      case Reject(why) =>
        var moved := Perform(worked, Deliver(|p.events|, now));
        && worked.next == p.next + 1 && InState(moved, SagaFailed) && moved.status == Failed && moved.commands == p.commands
        && (why != "" ==> moved.saga.value.failure == why)
      case PolicyError => worked == p
  {
    var worked := Perform(p, Work(decision, id));
    match decision
    case Approve => DeliveredEventsDecide(worked, |p.events|, now);
    case Reject(why) => RejectionIsTaken(p, why); DeliveredEventsDecide(worked, |p.events|, now);
    case PolicyError =>
  }

  lemma RejectionIsTaken(p: Payin, why: string)
    requires !HasEvent(p.events, OfResult(StatusFailed))
    ensures var p' := ApplyResult(p, FailedResult("", why), false).value;
      p'.status == Failed && p'.saga == p.saga && p'.commands == p.commands && p'.next == p.next
      && |p'.events| == |p.events| + 1 && p'.events[|p.events|] == SagaMessage(OfResult(StatusFailed), EventFailed, why)
  {}

  // ---- Timeouts ---------------------------------------------------------------

  /** What a timeout asks for, by the stage that timed out. */
  function AskedAgain(state: PayinState): PayinCommand {
    match state
    case PolicyWait | HoldWait => PayinFail
    case ExecutionWait | ProviderWait => PayinExecute
    case _ => LedgerRecord
  }

  lemma TimeoutMoves(p: Payin, now: int)
    requires p.saga.Some? && p.saga.value.deadline.Some? && p.saga.value.deadline.value <= now && Budget(p.saga.value.state) > 0
    ensures var p' := Perform(p, Timeout(now));
      && InState(p', p.saga.value.state) && CommandsOf(p'.commands) == CommandsOf(p.commands) + [AskedAgain(p.saga.value.state)]
      && p'.commands[..|p.commands|] == p.commands && p' == p.(saga := p'.saga, commands := p'.commands)
  {}

  lemma StepAsks(p: Payin, s: Step)
    ensures p.commands <= Perform(p, s).commands
  {
    match s
    case Work(decision, id) => if p.worker == Idle && p.next < |p.commands| { HandleKeepsSaga(p, p.commands[p.next], decision, id); }
    case Apply(taken) => if p.worker.Finished? { ResultKeepsSaga(p, p.worker.result, taken); }
    case Notify(reference, reported) => WebhookTouches(p, reported);
    case _ =>
  }

  lemma {:induction false} RunAsks(p: Payin, steps: seq<Step>)
    ensures p.commands <= Run(p, steps).commands
    decreases |steps|
  {
    if steps != [] {
      StepAsks(p, steps[0]);
      RunAsks(Perform(p, steps[0]), steps[1..]);
    }
  }

  /** A reachable pay-in whose deadline has passed keeps its stage and is asked for again, or,
      where nothing can be asked again, for its failure; and whenever that failure comes up
      later in the run, working it fails the payment. */
  lemma TimeoutsDecide(p0: Payin, steps: seq<Step>, now: int, later: seq<Step>, decision: Decision, id: nat)
    requires Fresh(p0)
    requires var p := Run(p0, steps); p.saga.Some? && p.saga.value.deadline.Some? && p.saga.value.deadline.value <= now
    ensures var p := Run(p0, steps);
      var expired := Perform(p, Timeout(now));
      var q := Run(expired, later);
      && InState(expired, p.saga.value.state) && CommandsOf(expired.commands) == CommandsOf(p.commands) + [AskedAgain(p.saga.value.state)]
      && ((p.saga.value.state == PolicyWait || p.saga.value.state == HoldWait) && q.worker == Idle && q.next == |p.commands| ==>
            var failed := Perform(q, Work(decision, id)); failed.status == Failed && failed.settlement == StatusFailed && failed.next == q.next + 1)
  {
    Reached(p0, steps);
    var p := Run(p0, steps);
    var expired := Perform(p, Timeout(now));
    TimeoutMoves(p, now);
    RunAsks(expired, later);
    assert CommandsOf(expired.commands)[|p.commands|] == AskedAgain(p.saga.value.state);
    var q := Run(expired, later);
    if q.worker == Idle && q.next == |p.commands| && q.commands[q.next].command == PayinFail { FailWorks(q, decision, id); }
  }

  lemma FailWorks(p: Payin, decision: Decision, id: nat)
    requires AtCommand(p, PayinFail)
    ensures var p' := Perform(p, Work(decision, id)); p'.status == Failed && p'.settlement == StatusFailed && p'.next == p.next + 1
  {}

  // ---- What the merchant is told ----------------------------------------------

  /** The notice that an id stands for. */
  function NoticeOf(id: MessageId): Notice {
    match id
    case OfResult(status) => if SaidByStatus(status) == Declined then NoticeFailed else NoticeProcessing
    case OfDelivery(_, status) => if SaidByStatus(status) == Declined then NoticeFailed else NoticeProcessing
    case OfRecord => NoticeSucceeded
    case OfCreation | Generated(_) => NoticeCreated
  }

  ghost predicate Told(notices: seq<PublicMessage>, notice: Notice) {
    exists i :: 0 <= i < |notices| && notices[i].notice == notice
  }

  /** Outcomes are announced, under ids that stand for them. */
  ghost predicate Announced(p: Payin) {
    && (forall i | 0 <= i < |p.notices| :: p.notices[i].notice == NoticeOf(p.notices[i].id))
    && (p.status == Succeeded ==> Told(p.notices, NoticeSucceeded))
    && (p.status == Failed ==> Told(p.notices, NoticeFailed))
  }

  /** Announcing under an id leaves its notice told, whether it was there before or not. */
  lemma AnnounceTells(p: Payin, id: MessageId, notice: Notice)
    requires notice == NoticeOf(id)
    requires forall i | 0 <= i < |p.notices| :: p.notices[i].notice == NoticeOf(p.notices[i].id)
    ensures var notices := Announce(p, id, notice).notices;
      && (forall i | 0 <= i < |notices| :: notices[i].notice == NoticeOf(notices[i].id))
      && Told(notices, notice) && (forall other :: Told(p.notices, other) ==> Told(notices, other))
  {
    var notices := Announce(p, id, notice).notices;
    if HasNotice(p.notices, id) {
      var n :| n in p.notices && n.id == id;
      var i :| 0 <= i < |p.notices| && p.notices[i] == n;
      assert notices[i].notice == notice;
    } else {
      assert notices[|p.notices|].notice == notice;
    }
    forall other | Told(p.notices, other) ensures Told(notices, other) {
      var i :| 0 <= i < |p.notices| && p.notices[i].notice == other;
      assert notices[i].notice == other;
    }
  }

  lemma ResultAnnounces(p: Payin, result: ExecutionResult, taken: bool)
    requires Announced(p)
    ensures ApplyResult(p, result, taken).Some? ==> Announced(ApplyResult(p, result, taken).value)
  {
    var settlement := NormalizeStatus(result.status);
    var status := PaymentStateFor(settlement);
    var updated := p.(reference := result.reference, settlement := settlement, status := status, timeline := p.timeline + [status]);
    var emitted := Emit(updated, OfResult(settlement), EventFor(settlement), OrElse(result.message, result.code));
    if NoticeFor(settlement).Some? { AnnounceTells(emitted, OfResult(settlement), NoticeFor(settlement).value); }
  }

  lemma RecordAnnounces(p: Payin)
    requires Announced(p) && RecordPayin(p).Some?
    ensures Announced(RecordPayin(p).value)
  {
    var emitted := RecordPayin(p).value.(notices := p.notices);
    AnnounceTells(emitted, OfRecord, NoticeSucceeded);
  }

  lemma WebhookAnnounces(p: Payin, reported: ProviderStatus)
    requires Announced(p)
    ensures Announced(Webhook(p, reported))
  {
    var p' := Webhook(p, reported);
    if Lifecycle(reported).Some? && NoticeFor(Lifecycle(reported).value).Some? {
      var settlement := Lifecycle(reported).value;
      AnnounceTells(p'.(notices := p.notices), OfDelivery(p.reference, settlement), NoticeFor(settlement).value);
    }
  }

  lemma StepAnnounces(p: Payin, s: Step)
    requires Announced(p)
    ensures Announced(Perform(p, s))
  {
    match s
    case Work(decision, id) => if p.worker == Idle && p.next < |p.commands| { HandleAnnounces(p, p.commands[p.next], decision, id); }
    case Apply(taken) => if p.worker.Finished? { ResultAnnounces(p, p.worker.result, taken); }
    case Notify(reference, reported) => WebhookAnnounces(p, reported);
    case _ =>
  }

  lemma HandleAnnounces(p: Payin, message: CommandMessage, decision: Decision, id: nat)
    requires Announced(p)
    ensures Announced(HandleCommand(p, message, decision, id))
  {
    match message.command
    case PolicyEvaluate => if decision.Reject? { ResultAnnounces(p, FailedResult("", decision.reason), false); }
    case PayinExecute =>
    case LedgerRecord => if RecordPayin(p).Some? { RecordAnnounces(p); }
    case PayinFail => ResultAnnounces(p, FailedResult("", message.reason), false);
  }

  lemma {:induction false} RunAnnounces(p: Payin, steps: seq<Step>)
    requires Announced(p)
    ensures Announced(Run(p, steps))
    decreases |steps|
  {
    if steps != [] {
      StepAnnounces(p, steps[0]);
      RunAnnounces(Perform(p, steps[0]), steps[1..]);
    }
  }

  /** In every reachable state the merchant has been told of success iff the pay-in has
      succeeded, and of its failure if it has failed. */
  lemma NoticesTellTheOutcome(p0: Payin, steps: seq<Step>)
    requires Fresh(p0)
    ensures var p := Run(p0, steps);
      (Told(p.notices, NoticeSucceeded) <==> p.status == Succeeded) && (p.status == Failed ==> Told(p.notices, NoticeFailed))
  {
    RunAnnounces(p0, steps);
    Reached(p0, steps);
  }
}
