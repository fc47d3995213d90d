/** One pay-in as the transactions see it: its payment and payin rows, saga, journals,
    history, and the messages it has written to each topic.

    Saga events may be delivered in any order and any number of times. Commands are
    consumed in order: `next` is the first command whose inbox transaction has not yet
    committed. Executing and applying are separate steps, so webhooks, timeouts and
    crashes may fall between them. */
module PayinProtocol {
  import opened PaymentCore
  import opened Ledger
  import opened Provider

  // ---- Vocabulary -------------------------------------------------------------

  /** payins.settlement_status */
  datatype PayinStatus =
    | StatusCreated | StatusSubmitting | StatusUnknown | StatusProcessing
    | StatusOnHold | StatusReceived | StatusFailed | StatusRefunded

  /** settlement_sagas.state for direction 'payin' */
  datatype PayinState =
    | PolicyWait | ExecutionWait | ProviderWait | HoldWait | LedgerWait
    | SagaCompleted | SagaFailed | SagaRefunded

  datatype PayinEvent =
    | EventCreated | EventApproved | EventProcessing | EventOnHold
    | EventReceived | EventFailed | EventRefunded | EventSucceeded

  datatype PayinCommand = PolicyEvaluate | PayinExecute | LedgerRecord | PayinFail

  datatype Notice = NoticeCreated | NoticeProcessing | NoticeFailed | NoticeSucceeded

  /** Generated, or derived from the result status, the provider delivery or the journal. */
  datatype MessageId =
    | Generated(n: nat) | OfResult(result: PayinStatus) | OfDelivery(reference: string, status: PayinStatus)
    | OfRecord | OfCreation

  datatype SagaMessage = SagaMessage(id: MessageId, event: PayinEvent, reason: string)
  datatype CommandMessage = CommandMessage(command: PayinCommand, reason: string)
  datatype PublicMessage = PublicMessage(id: MessageId, notice: Notice)

  datatype Saga = Saga(state: PayinState, deadline: Option<int>, failure: string)

  datatype Worker =
    | Idle
    | Calling
    | Answered(reply: ProviderReply)
    | Finished(result: ExecutionResult)

  /** amount and currency are the destination side; an empty reference is NULL. */
  datatype Payin = Payin(
    amount: int, currency: string, key: string, providerQuote: string,
    status: PaymentStatus, settlement: PayinStatus, reference: string,
    journals: seq<JournalKind>, entries: seq<Entry>, timeline: seq<PaymentStatus>,
    saga: Option<Saga>,
    events: seq<SagaMessage>, commands: seq<CommandMessage>, notices: seq<PublicMessage>,
    next: nat, worker: Worker)

  /** A pay-in as createPayin commits it. */
  function NewPayin(amount: int, currency: string, key: string, providerQuote: string): Payin {
    Payin(amount, currency, key, providerQuote, Created, StatusCreated, "", [], [], [Created], None,
          [SagaMessage(OfCreation, EventCreated, "")], [], [PublicMessage(OfCreation, NoticeCreated)], 0, Idle)
  }

  // ---- Saga coordinator -------------------------------------------------------

  const OPERATION_TIMEOUT: int := 600_000_000_000
  const COMPLIANCE_TIMEOUT: int := 86_400_000_000_000

  function Deadline(state: PayinState, now: int): Option<int> {
    match state
    case PolicyWait | ExecutionWait | ProviderWait | LedgerWait => Some(now + OPERATION_TIMEOUT)
    case HoldWait => Some(now + COMPLIANCE_TIMEOUT)
    case _ => None
  }

  /** The switch of Handle: a move, an event that is ignored, or an invalid one. */
  datatype Verdict = To(state: PayinState, command: Option<PayinCommand>) | Ignored | Invalid

  function Transition(state: PayinState, event: PayinEvent): Verdict {
    var executing := state == ExecutionWait || state == ProviderWait;
    if state == PolicyWait && event == EventApproved then To(ExecutionWait, Some(PayinExecute))
    else if event == EventProcessing && (executing || state == HoldWait) then To(ProviderWait, None)
    else if event == EventOnHold && executing then To(HoldWait, None)
    else if event == EventReceived && (executing || state == HoldWait) then To(LedgerWait, Some(LedgerRecord))
    else if state == LedgerWait && event == EventSucceeded then To(SagaCompleted, None)
    else if event == EventFailed && state != SagaCompleted && state != SagaRefunded then To(SagaFailed, None)
    else if event == EventRefunded && state != SagaFailed && state != SagaRefunded then To(SagaRefunded, None)
    else if state == SagaCompleted || state == SagaFailed || state == SagaRefunded then Ignored
    else Invalid
  }

  function Enqueue(p: Payin, command: PayinCommand): Payin {
    p.(commands := p.commands + [CommandMessage(command, if command == PayinFail then "payin workflow timed out" else "")])
  }

  function OrElse(s: string, fallback: string): string {
    if s != "" then s else fallback
  }

  function HandleEvent(p: Payin, event: PayinEvent, reason: string, now: int): Payin {
    if event == EventCreated then
      if p.saga.Some? then p
      else Enqueue(p.(saga := Some(Saga(PolicyWait, Deadline(PolicyWait, now), ""))), PolicyEvaluate)
    else if p.saga.None? then p
    else
      match Transition(p.saga.value.state, event)
      case To(state, command) =>
        var moved := p.(saga := Some(Saga(state, Deadline(state, now), OrElse(reason, p.saga.value.failure))));
        if command.None? then moved else Enqueue(moved, command.value)
      case _ => p
  }

  predicate Expirable(state: PayinState) {
    match state
    case PolicyWait | ExecutionWait | ProviderWait | HoldWait | LedgerWait => true
    case _ => false
  }

  predicate Overdue(saga: Option<Saga>, now: int) {
    && saga.Some? && Expirable(saga.value.state)
    && saga.value.deadline.Some? && saga.value.deadline.value <= now
  }

  function Name(state: PayinState): string {
    match state
    case PolicyWait => "awaiting_policy"
    case ExecutionWait => "awaiting_execution"
    case ProviderWait => "processing"
    case HoldWait => "on_hold"
    case LedgerWait => "awaiting_ledger"
    case SagaCompleted => "completed"
    case SagaFailed => "failed"
    case SagaRefunded => "refunded"
  }

  function TimeoutCommand(state: PayinState): PayinCommand {
    match state
    case PolicyWait | HoldWait => PayinFail
    case LedgerWait => LedgerRecord
    case _ => PayinExecute
  }

  /** ExpireOnce for one claimed saga: the state stays, the work is asked for again. */
  function Expire(p: Payin, now: int): Payin {
    if !Overdue(p.saga, now) then p
    else
      var saga := p.saga.value;
      Enqueue(p.(saga := Some(saga.(deadline := Some(now + OPERATION_TIMEOUT), failure := OrElse(saga.failure, Name(saga.state) + " timeout")))),
              TimeoutCommand(saga.state))
  }

  // ---- Results ----------------------------------------------------------------

  predicate HasEvent(events: seq<SagaMessage>, id: MessageId) { exists e :: e in events && e.id == id }
  predicate HasNotice(notices: seq<PublicMessage>, id: MessageId) { exists n :: n in notices && n.id == id }

  /** INSERT ... ON CONFLICT(id) DO NOTHING, on the saga topic and on the public topic. */
  function Emit(p: Payin, id: MessageId, event: PayinEvent, reason: string): Payin {
    if HasEvent(p.events, id) then p else p.(events := p.events + [SagaMessage(id, event, reason)])
  }

  function Announce(p: Payin, id: MessageId, notice: Notice): Payin {
    if HasNotice(p.notices, id) then p else p.(notices := p.notices + [PublicMessage(id, notice)])
  }

  function NormalizeStatus(status: ExecutionStatus): PayinStatus {
    match status
    case ExecutionPending => StatusProcessing
    case ExecutionOnHold => StatusOnHold
    case ExecutionSucceeded => StatusReceived
    case ExecutionFailed => StatusFailed
  }

  function PersistedExecution(status: PayinStatus): ExecutionStatus {
    match status
    case StatusOnHold => ExecutionOnHold
    case StatusReceived => ExecutionSucceeded
    case StatusFailed | StatusRefunded => ExecutionFailed
    case _ => ExecutionPending
  }

  function PaymentStateFor(status: PayinStatus): PaymentStatus {
    if status == StatusFailed || status == StatusRefunded then Failed else Processing
  }

  function EventFor(status: PayinStatus): PayinEvent {
    match status
    case StatusOnHold => EventOnHold
    case StatusReceived => EventReceived
    case StatusFailed => EventFailed
    case StatusRefunded => EventRefunded
    case _ => EventProcessing
  }

  function NoticeFor(status: PayinStatus): Option<Notice> {
    match status
    case StatusProcessing | StatusOnHold => Some(NoticeProcessing)
    case StatusFailed | StatusRefunded => Some(NoticeFailed)
    case _ => None
  }

  /** ApplyResult, which never looks at the current payment status. None is a rollback,
      because another pay-in already holds the provider reference. */
  function ApplyResult(p: Payin, result: ExecutionResult, taken: bool): Option<Payin> {
    if taken && result.reference != "" then None
    else
      var settlement := NormalizeStatus(result.status);
      var status := PaymentStateFor(settlement);
      var updated := p.(reference := result.reference, settlement := settlement, status := status, timeline := p.timeline + [status]);
      var emitted := Emit(updated, OfResult(settlement), EventFor(settlement), OrElse(result.message, result.code));
      var notice := NoticeFor(settlement);
      Some(if notice.None? then emitted else Announce(emitted, OfResult(settlement), notice.value))
  }

  /** RecordPayin; None is the refusal of a pay-in that has not been received. */
  function RecordPayin(p: Payin): Option<Payin> {
    if p.settlement != StatusReceived then None
    else
      var posted := if PayinJournal in p.journals then p
        else p.(journals := p.journals + [PayinJournal], entries := p.entries + Lines(PayinJournal, p.amount, p.currency));
      var completed := posted.(status := Succeeded, timeline := p.timeline + [Succeeded]);
      Some(Announce(Emit(completed, OfRecord, EventSucceeded, ""), OfRecord, NoticeSucceeded))
  }

  // ---- Command worker ---------------------------------------------------------

  datatype Decision = Approve | Reject(reason: string) | PolicyError

  /** A failure that never reached the provider. */
  function FailedResult(code: string, message: string): ExecutionResult {
    ExecutionResult("", ExecutionFailed, code, message)
  }

  /** ExecutePayin up to the provider call. */
  function Prepare(p: Payin): Payin {
    if p.reference != "" then p.(worker := Finished(ExecutionResult(p.reference, PersistedExecution(p.settlement), "", "")))
    else if p.settlement != StatusCreated && p.settlement != StatusSubmitting && p.settlement != StatusUnknown then p
    else
      var marked := p.(settlement := StatusSubmitting);
      if ExecuteRequest(p.key, p.providerQuote).Valid() then marked.(worker := Calling) else marked
  }

  /** The inbox transaction commits: the command is done. */
  function Done(p: Payin): Payin { p.(next := p.next + 1) }

  /** CommandHandler.Handle on one command; a refused command is retried. */
  function HandleCommand(p: Payin, message: CommandMessage, decision: Decision, id: nat): Payin {
    match message.command
    case PolicyEvaluate =>
      (match decision
       case Approve => Done(p.(events := p.events + [SagaMessage(Generated(id), EventApproved, "")]))
       case Reject(why) => Done(ApplyResult(p, FailedResult("", why), false).value)
       case PolicyError => p)
    case PayinExecute => Prepare(p)
    case LedgerRecord => var recorded := RecordPayin(p); if recorded.None? then p else Done(recorded.value)
    case PayinFail => Done(ApplyResult(p, FailedResult("", message.reason), false).value)
  }

  /** The outcome of the provider call, with recordError for the two error kinds. */
  function Conclude(p: Payin, reply: ProviderReply): Payin {
    match reply
    case Answer(result) => p.(worker := if result.Valid() then Finished(result) else Idle)
    case Fault => p.(worker := Idle, settlement := if p.settlement == StatusSubmitting then StatusUnknown else p.settlement)
    case Refusal(message, code, retryable) =>
      var settlement := if p.settlement != StatusSubmitting then p.settlement else if retryable then StatusUnknown else StatusFailed;
      p.(worker := if retryable then Idle else Finished(FailedResult(code, message)), settlement := settlement)
  }

  // ---- Provider webhooks ------------------------------------------------------

  /** The statuses that validProviderPayinStatus admits. */
  datatype ProviderStatus = ReportsProcessing | ReportsOnHold | ReportsCompleted | ReportsFailed | ReportsRefunded

  /** mapPayinStatus as the webhook stores it; None is "pending", which the CHECK constraint
      on payins.settlement_status refuses. */
  function Lifecycle(status: ProviderStatus): Option<PayinStatus> {
    match status
    case ReportsCompleted => Some(StatusReceived)
    case ReportsFailed | ReportsRefunded => Some(StatusFailed)
    case ReportsOnHold => Some(StatusOnHold)
    case ReportsProcessing => None
  }

  function StatusText(status: ProviderStatus): string {
    match status
    case ReportsProcessing => "processing"
    case ReportsOnHold => "on_hold"
    case ReportsCompleted => "completed"
    case ReportsFailed => "failed"
    case ReportsRefunded => "refunded"
  }

  /** applyPayinWebhook for a delivery that names this pay-in's reference. */
  function Webhook(p: Payin, reported: ProviderStatus): Payin {
    var lifecycle := Lifecycle(reported);
    if lifecycle.None? || p.settlement == lifecycle.value || p.settlement == StatusFailed || p.settlement == StatusRefunded then p
    else
      var settlement := lifecycle.value;
      var status := if p.status == Succeeded then Succeeded else PaymentStateFor(settlement);
      var updated := p.(settlement := settlement, status := status, timeline := p.timeline + [status]);
      var id := OfDelivery(p.reference, settlement);
      var emitted := if p.saga.None? then updated else Emit(updated, id, EventFor(settlement), StatusText(reported));
      var notice := NoticeFor(settlement);
      if notice.None? || p.status == Succeeded then emitted else Announce(emitted, id, notice.value)
  }

  // ---- Runs -------------------------------------------------------------------

  datatype Step =
    | Deliver(i: nat, now: int)
    | Timeout(now: int)
    | Work(decision: Decision, id: nat)
    | Call(reply: ProviderReply)
    | Report
    | Apply(taken: bool)
    | Crash
    | Notify(reference: string, reported: ProviderStatus)

  function Perform(p: Payin, s: Step): Payin {
    match s
    case Deliver(i, now) => if i < |p.events| then HandleEvent(p, p.events[i].event, p.events[i].reason, now) else p
    case Timeout(now) => Expire(p, now)
    case Work(decision, id) => if p.worker == Idle && p.next < |p.commands| then HandleCommand(p, p.commands[p.next], decision, id) else p
    case Call(reply) => if p.worker == Calling then p.(worker := Answered(reply)) else p
    case Report => if p.worker.Answered? then Conclude(p, p.worker.reply) else p
    case Apply(taken) =>
      if !p.worker.Finished? then p
      else
        var applied := ApplyResult(p, p.worker.result, taken);
        if applied.None? then p.(worker := Idle) else Done(applied.value.(worker := Idle))
    case Crash => p.(worker := Idle)
    case Notify(reference, reported) => if reference != "" && reference == p.reference then Webhook(p, reported) else p
  }

  function Run(p: Payin, steps: seq<Step>): Payin
    decreases |steps|
  {
    if steps == [] then p else Run(Perform(p, steps[0]), steps[1..])
  }
}
