/** One payout as the transactions see it: its payment row, saga, payout submission,
    journals, history and outbox messages, and one function per transaction.

    Delivery is deliberately unconstrained: a consumer may take any message that was
    ever written to the outbox, in any order and any number of times, and a worker may
    crash between any two of its database transactions. */
module PayoutProtocol {
  import opened PaymentCore
  import opened Ledger
  import opened PayoutSaga
  import opened Provider

  /** payouts.settlement_status; SubmissionFailed also stands for every text that is not
      a payout status, since both have rank 0. */
  datatype SettlementStatus =
    | SubmissionPending | SubmissionUnknown | SubmissionFailed
    | SettlementProcessing | SettlementOnHold
    | SettlementCompleted | SettlementFailed | SettlementRefunded

  // ---- Rows -------------------------------------------------------------------

  /** Outbox ids: generated, derived from the command that caused them, or derived from
      a provider delivery. */
  datatype EventId = Generated(n: nat) | ResultOf(command: EventId) | FromDelivery(svix: string)

  /** Merchant-facing messages on the payment-events topic. */
  datatype Notice = NoticeCreated | NoticeProcessing | NoticeSucceeded | NoticeFailed | NoticeReturned

  datatype Message = Event(event: SagaEvent) | Order(command: Command) | Public(notice: Notice)

  datatype OutboxEvent = OutboxEvent(id: EventId, body: Message, reason: string)

  datatype Saga = Saga(state: SagaState, deadline: Option<int>, failure: string)

  /** payouts row; an empty reference is a NULL provider_payout_id. */
  datatype Payout = Payout(reference: string, status: SettlementStatus, key: string)

  /** The accepted quote bound to the payment. */
  datatype Route = Route(quote: string, providerQuote: string, senderAmount: int, currency: string)

  datatype Return = Return(svix: string, amount: int, currency: string)

  /** settlement_submissions, in insertion order; an empty reference is NULL. */
  datatype Submission = Submission(command: EventId, reference: string, status: ExecutionStatus)

  /** The command worker's in-memory progress through settlement.execute. */
  datatype Worker =
    | Idle
    | Calling(command: EventId)
    | Answered(command: EventId, reply: ProviderReply)
    | Finished(command: EventId, result: ExecutionResult)

  datatype Row = Row(
    amount: int, currency: string, key: string, route: Option<Route>,
    status: PaymentStatus,
    journals: seq<JournalKind>, entries: seq<Entry>, timeline: seq<PaymentStatus>,
    saga: Option<Saga>,
    payout: Option<Payout>, returned: seq<Return>,
    submissions: seq<Submission>,
    outbox: seq<OutboxEvent>,
    worker: Worker, calls: seq<ExecuteRequest>)

  /** A payment as createPayout or CreateRefund commits it. */
  function NewRow(amount: int, currency: string, key: string, route: Option<Route>, id: nat): Row {
    Row(amount, currency, key, route, Created, [], [], [Created], None, None, [], [],
        [OutboxEvent(Generated(id), Event(PayoutCreated), ""),
         OutboxEvent(Generated(id + 1), Public(NoticeCreated), "")],
        Idle, [])
  }

  function Send(r: Row, id: EventId, body: Message, reason: string): Row {
    r.(outbox := r.outbox + [OutboxEvent(id, body, reason)])
  }

  predicate HasId(outbox: seq<OutboxEvent>, id: EventId) {
    exists e :: e in outbox && e.id == id
  }

  /** INSERT ... ON CONFLICT(id) DO NOTHING; `clash` says that another payment's message
      already uses the id. */
  function SendOnce(r: Row, id: EventId, clash: bool, body: Message, reason: string): Row {
    if clash || HasId(r.outbox, id) then r else Send(r, id, body, reason)
  }

  // ---- Saga coordinator -------------------------------------------------------

  /** The saga row after a move. */
  function Moved(saga: Saga, m: Move, now: int): Saga {
    Saga(m.next, if m.timeout > 0 then Some(now + m.timeout) else None, OrDefault(m.failure, saga.failure))
  }

  /** updateAndCommand */
  function Advance(r: Row, m: Move, now: int, id: nat): Row
    requires r.saga.Some?
  {
    var moved := r.(saga := Some(Moved(r.saga.value, m, now)));
    if m.command.None? then moved else Send(moved, Generated(id), Order(m.command.value), m.failure)
  }

  /** start: creating a saga twice is a no-op. */
  function Start(t: Timeouts, r: Row, now: int, id: nat): Row {
    if r.saga.Some? then r
    else Send(r.(saga := Some(Saga(AwaitingPolicy, Some(now + t.policy), ""))), Generated(id), Order(PolicyEvaluate), "")
  }

  /** PayoutSagaHandler over Handle: an invalid event rolls back. */
  function HandleEvent(t: Timeouts, r: Row, event: SagaEvent, reason: string, now: int, id: nat): Row {
    if event == FundsReturned then r
    else if event == PayoutCreated then Start(t, r, now, id)
    else if r.saga.None? then r
    else
      var m := Transition(t, r.saga.value.state, event, reason);
      if m.None? then r else Advance(r, m.value, now, id)
  }

  predicate Overdue(saga: Option<Saga>, now: int) {
    && saga.Some? && Expirable(saga.value.state)
    && saga.value.deadline.Some? && saga.value.deadline.value <= now
  }

  function ExpireSaga(t: Timeouts, r: Row, now: int, id: nat): Row {
    if Overdue(r.saga, now) then Advance(r, TimeoutMove(t, r.saga.value.state), now, id) else r
  }

  function ResolveReview(t: Timeouts, r: Row, action: ReviewAction, operator: string, note: string, now: int, id: nat): Row {
    if operator == "" || note == "" || r.saga.None? || r.saga.value.state != ManualReview then r
    else Advance(r, ReviewMove(t, action, note), now, id)
  }

  // ---- Ledger -----------------------------------------------------------------

  /** The outcome of a ledger posting; Refused is ErrInvalidPaymentStatus. */
  datatype Posting = Posted(row: Row) | Refused

  /** postFrom with one source status. */
  function Post(r: Row, from: PaymentStatus, to: PaymentStatus, kind: JournalKind, updateState: bool): Posting {
    if updateState && r.status == to then Posted(r)
    else if r.status != from then Refused
    else
      var updated := if updateState then r.(status := to) else r;
      if kind in r.journals then Posted(updated)
      else Posted(updated.(
        journals := r.journals + [kind],
        entries := r.entries + Lines(kind, r.amount, r.currency),
        timeline := r.timeline + [if updateState then to else r.status]))
  }

  function Reserve(r: Row): Posting { Post(r, Created, Processing, ProcessingJournal, true) }
  function Release(r: Row): Posting { Post(r, Processing, Processing, ReleasedJournal, false) }
  function Settle(r: Row): Posting { Post(r, Processing, Succeeded, SucceededJournal, true) }

  /** RecordReturn; a return journal that is already there is left alone. */
  function RecordReturn(r: Row, svix: string): Posting {
    if svix == "" || r.status != Succeeded || SucceededJournal !in r.journals then Refused
    else if ReturnJournal in r.journals then Posted(r)
    else Posted(r.(
      journals := r.journals + [ReturnJournal],
      entries := r.entries + Lines(ReturnJournal, r.amount, r.currency),
      returned := r.returned + [Return(svix, r.amount, r.currency)],
      timeline := r.timeline + [Succeeded]))
  }

  // ---- Command worker ---------------------------------------------------------

  datatype Decision = Approve | Reject(reason: string) | PolicyError

  function NoticeFor(reply: SagaEvent): Option<Notice> {
    match reply
    case FundsReserved => Some(NoticeProcessing)
    case PayoutCompleted => Some(NoticeSucceeded)
    case PayoutFailed => Some(NoticeFailed)
    case _ => None
  }

  /** enqueueReply */
  function Reply(r: Row, reply: SagaEvent, reason: string, id: nat): Row {
    var sent := Send(r, Generated(id), Event(reply), reason);
    var notice := NoticeFor(reply);
    if notice.None? then sent else Send(sent, Generated(id + 1), Public(notice.value), reason)
  }

  function PostAndReply(r: Row, posting: Posting, reply: SagaEvent, reason: string, id: nat): Row {
    if posting.Refused? then r else Reply(posting.row, reply, reason, id)
  }

  /** payment.fail and payment.fail_reserved */
  function FailPayment(r: Row, reason: string, id: nat): Row {
    if r.status == Succeeded || r.status == Failed then r
    else Reply(r.(status := Failed, timeline := r.timeline + [Failed]), PayoutFailed, reason, id)
  }

  /** payment.return needs a failed payment with a posted release. */
  predicate Returnable(r: Row) {
    r.status == Failed && ReleasedJournal in r.journals
  }

  function ReturnPayment(r: Row, reason: string, id: nat): Row {
    if !Returnable(r) then r
    else Reply(r.(timeline := r.timeline + [Failed]), FundsReturned, reason, id)
  }

  /** CommandHandler.Handle for one command message. */
  function HandleCommand(r: Row, message: EventId, command: Command, reason: string, decision: Decision, id: nat): Row {
    match command
    case PolicyEvaluate =>
      (match decision
       case Approve => Reply(r, PolicyApproved, reason, id)
       case Reject(why) => Reply(r, PolicyRejected, why, id)
       case PolicyError => r)
    case LedgerReserve => PostAndReply(r, Reserve(r), FundsReserved, reason, id)
    case LedgerRelease => PostAndReply(r, Release(r), FundsReleased, reason, id)
    case PaymentSettle => PostAndReply(r, Settle(r), PayoutCompleted, reason, id)
    case PaymentFail | PaymentFailReserved => FailPayment(r, reason, id)
    case PaymentReturn => ReturnPayment(r, reason, id)
    case SettlementExecute => Prepare(r, message)
  }

  /** What the inbox sees of a command: its transaction commits, it is permanently rejected,
      it is to be retried, or its submission is under way. */
  datatype Outcome = Committed | Rejected | Retried | Submitting

  function OutcomeOf(r: Row, command: Command, decision: Decision): Outcome {
    match command
    case PolicyEvaluate => if decision == PolicyError then Retried else Committed
    case LedgerReserve => if Reserve(r).Posted? then Committed else Rejected
    case LedgerRelease => if Release(r).Posted? then Committed else Rejected
    case PaymentSettle => if Settle(r).Posted? then Committed else Rejected
    case PaymentFail | PaymentFailReserved => if r.status == Created || r.status == Processing then Committed else Rejected
    case PaymentReturn => if Returnable(r) then Committed else Rejected
    case SettlementExecute => Submitting
  }

  // ---- Provider submission ----------------------------------------------------

  /** strings.TrimSpace */
  predicate IsSpace(c: char) {
    c in "\t\n\r " || c as int in {0x0B, 0x0C, 0x85, 0xA0, 0x1680, 0x2028, 0x2029, 0x202F, 0x205F, 0x3000}
    || 0x2000 <= c as int <= 0x200A
  }

  function TrimSpace(s: string): (trimmed: string)
    ensures |trimmed| <= |s|
  {
    if s != "" && IsSpace(s[0]) then TrimSpace(s[1..])
    else if s != "" && IsSpace(s[|s| - 1]) then TrimSpace(s[..|s| - 1])
    else s
  }

  /** persistedStatus; the code is trimmed for the comparison but stored as it came. */
  function PersistedStatus(result: ExecutionResult): string {
    match result.status
    case ExecutionSucceeded => "completed"
    case ExecutionOnHold => "on_hold"
    case ExecutionFailed => if TrimSpace(result.code) in {"refunded", "submission_failed"} then result.code else "failed"
    case ExecutionPending => "processing"
  }

  /** The CHECK constraint on payouts.settlement_status. */
  function ParseStatus(s: string): Option<SettlementStatus> {
    if s == "submission_pending" then Some(SubmissionPending)
    else if s == "unknown" then Some(SubmissionUnknown)
    else if s == "submission_failed" then Some(SubmissionFailed)
    else if s == "processing" then Some(SettlementProcessing)
    else if s == "on_hold" then Some(SettlementOnHold)
    else if s == "completed" then Some(SettlementCompleted)
    else if s == "failed" then Some(SettlementFailed)
    else if s == "refunded" then Some(SettlementRefunded)
    else None
  }

  /** mapPersistedResult */
  function MapPersisted(reference: string, status: SettlementStatus): ExecutionResult {
    match status
    case SettlementCompleted => ExecutionResult(reference, ExecutionSucceeded, "", "")
    case SettlementProcessing | SubmissionPending | SubmissionUnknown => ExecutionResult(reference, ExecutionPending, "", "")
    case SettlementOnHold => ExecutionResult(reference, ExecutionOnHold, "", "")
    case SettlementFailed => ExecutionResult(reference, ExecutionFailed, "failed", "")
    case SettlementRefunded => ExecutionResult(reference, ExecutionFailed, "refunded", "")
    case SubmissionFailed => ExecutionResult(reference, ExecutionFailed, "submission_failed", "")
  }

  /** prepare, then the early returns of executePayout. */
  function Prepare(r: Row, command: EventId): Row {
    if r.worker != Idle || r.key == "" || r.route.None? then r
    else if r.payout.None? then r.(payout := Some(Payout("", SubmissionPending, r.key)), worker := Calling(command))
    else if r.payout.value.key != r.key then r
    else if r.payout.value.reference != "" then
      r.(worker := Finished(command, MapPersisted(r.payout.value.reference, r.payout.value.status)))
    else if r.payout.value.status != SubmissionUnknown then r
    else r.(worker := Calling(command))
  }

  /** The provider call, made outside any transaction. */
  function CallProvider(r: Row, reply: ProviderReply): Row {
    if r.worker.Calling? && r.route.Some? then
      r.(worker := Answered(r.worker.command, reply), calls := r.calls + [ExecuteRequest(r.key, r.route.value.providerQuote)])
    else r
  }

  predicate Unresolved(status: SettlementStatus) { status.SubmissionPending? || status.SubmissionUnknown? }

  /** recordError, or the UPDATE that stores the response; both only touch an unresolved row. */
  function RecordReply(r: Row): Row {
    if !r.worker.Answered? || r.payout.None? then r
    else
      var command, row, resolved := r.worker.command, r.payout.value, r.(worker := Idle);
      match r.worker.reply
      case Fault =>
        if Unresolved(row.status) then resolved.(payout := Some(row.(status := SubmissionUnknown))) else resolved
      case Refusal(message, code, retryable) =>
        var status := if retryable then SubmissionUnknown else SubmissionFailed;
        var recorded := if Unresolved(row.status) then resolved.(payout := Some(row.(status := status))) else resolved;
        if !retryable && code == "submission_failed" then
          recorded.(worker := Finished(command, ExecutionResult("", ExecutionFailed, code, message)))
        else recorded
      case Answer(result) =>
        var status := ParseStatus(PersistedStatus(result));
        if !result.Valid() || status.None? then resolved
        else
          var recorded := if Unresolved(row.status) then resolved.(payout := Some(Payout(result.reference, status.value, row.key))) else resolved;
          recorded.(worker := Finished(command, result))
  }

  /** The saga event that ApplyResult publishes, if any. */
  function ResultEvent(result: ExecutionResult): Option<SagaEvent> {
    match result.status
    case ExecutionPending => None
    case ExecutionOnHold => Some(ProviderHeld)
    case ExecutionFailed => Some(if result.code == "refunded" then ProviderReturned else ProviderFailed)
    case ExecutionSucceeded => Some(ProviderCompleted)
  }

  function ResultReason(result: ExecutionResult): string {
    if result.status == ExecutionFailed && result.message == "" then result.code else result.message
  }

  predicate HasSubmission(submissions: seq<Submission>, command: EventId) {
    exists s :: s in submissions && s.command == command
  }

  /** provider_reference is UNIQUE, so a reference can be inserted only once. */
  predicate ReferenceTaken(submissions: seq<Submission>, reference: string) {
    reference != "" && exists s :: s in submissions && s.reference == reference
  }

  /** INSERT ... ON CONFLICT(command_event_id) DO UPDATE SET status: the reference stays. */
  function Upsert(submissions: seq<Submission>, command: EventId, result: ExecutionResult): (after: seq<Submission>)
    ensures HasSubmission(after, command)
  {
    if HasSubmission(submissions, command) then
      var after := seq(|submissions|, i requires 0 <= i < |submissions| =>
        if submissions[i].command == command then submissions[i].(status := result.status) else submissions[i]);
      assert forall i | 0 <= i < |submissions| :: after[i] in after && after[i].command == submissions[i].command;
      after
    else
      var added := Submission(command, result.reference, result.status);
      assert added in submissions + [added];
      submissions + [added]
  }

  /** ApplyResult in the inbox transaction of the settlement.execute command. */
  function ApplyResult(r: Row, clash: bool): Row {
    if !r.worker.Finished? then r
    else
      var command, result := r.worker.command, r.worker.result;
      if !HasSubmission(r.submissions, command) && ReferenceTaken(r.submissions, result.reference) then r.(worker := Idle)
      else
        var stored := r.(worker := Idle, submissions := Upsert(r.submissions, command, result));
        var event := ResultEvent(result);
        if event.None? then stored
        else SendOnce(stored, ResultOf(command), clash, Event(event.value), ResultReason(result))
  }

  // ---- Provider webhooks ------------------------------------------------------

  /** payoutStatusRank */
  function Rank(status: SettlementStatus): nat {
    match status
    case SubmissionPending | SubmissionUnknown => 1
    case SettlementProcessing => 2
    case SettlementOnHold => 3
    case SettlementCompleted | SettlementFailed | SettlementRefunded => 4
    case SubmissionFailed => 0
  }

  predicate Terminal(status: SettlementStatus) {
    status.SettlementCompleted? || status.SettlementFailed? || status.SettlementRefunded?
  }

  /** payoutStatusCanAdvance */
  predicate CanAdvance(current: SettlementStatus, next: SettlementStatus) {
    if current == next || current.SettlementFailed? || current.SettlementRefunded? then false
    else if current == SettlementCompleted then next == SettlementRefunded
    else Rank(next) > Rank(current)
  }

  /** enqueueSagaResult; an early webhook without a saga sends nothing. */
  function SendSagaResult(r: Row, svix: string, status: SettlementStatus, clash: bool): Row {
    if r.saga.None? then r
    else match status
      case SettlementCompleted => SendOnce(r, FromDelivery(svix), clash, Event(ProviderCompleted), "")
      case SettlementRefunded => SendOnce(r, FromDelivery(svix), clash, Event(ProviderReturned), "refunded")
      case SettlementOnHold => SendOnce(r, FromDelivery(svix), clash, Event(ProviderHeld), "settlement on hold")
      case _ => SendOnce(r, FromDelivery(svix), clash, Event(ProviderFailed), "failed")
  }

  /** Process for a verified payout.* delivery that names this payout. */
  function Webhook(r: Row, svix: string, status: SettlementStatus, clash: bool): Row {
    if svix == "" || Rank(status) == 0 || r.payout.None? || r.payout.value.reference == "" then r
    else
      var current := r.payout.value.status;
      if !CanAdvance(current, status) then
        if current == status && Terminal(status) then SendSagaResult(r, svix, status, clash) else r
      else
        var updated := r.(payout := Some(r.payout.value.(status := status)));
        if current == SettlementCompleted && status == SettlementRefunded then
          var posting := RecordReturn(updated, svix);
          if posting.Refused? then r
          else SendOnce(posting.row, FromDelivery(svix), clash, Public(NoticeReturned), "provider returned funds after completed payout")
        else if Terminal(status) || status == SettlementOnHold then SendSagaResult(updated, svix, status, clash)
        else updated
  }

  // ---- Runs -------------------------------------------------------------------

  /** One transaction, provider call or crash; `id` seeds the ids it generates. */
  datatype Step =
    | Deliver(i: nat, now: int, id: nat)
    | Expire(now: int, id: nat)
    | Review(action: ReviewAction, operator: string, note: string, now: int, id: nat)
    | Work(i: nat, decision: Decision, id: nat)
    | Call(reply: ProviderReply)
    | Record
    | Apply(clash: bool)
    | Crash
    | Notify(svix: string, status: SettlementStatus, clash: bool)

  function Perform(t: Timeouts, r: Row, s: Step): Row {
    match s
    case Deliver(i, now, id) =>
      if i < |r.outbox| && r.outbox[i].body.Event? then HandleEvent(t, r, r.outbox[i].body.event, r.outbox[i].reason, now, id) else r
    case Expire(now, id) => ExpireSaga(t, r, now, id)
    case Review(action, operator, note, now, id) => ResolveReview(t, r, action, operator, note, now, id)
    case Work(i, decision, id) =>
      if i < |r.outbox| && r.outbox[i].body.Order? then
        HandleCommand(r, r.outbox[i].id, r.outbox[i].body.command, r.outbox[i].reason, decision, id)
      else r
    case Call(reply) => CallProvider(r, reply)
    case Record => RecordReply(r)
    case Apply(clash) => ApplyResult(r, clash)
    case Crash => r.(worker := Idle)
    case Notify(svix, status, clash) => Webhook(r, svix, status, clash)
  }

  function Run(t: Timeouts, r: Row, steps: seq<Step>): Row
    decreases |steps|
  {
    if steps == [] then r else Run(t, Perform(t, r, steps[0]), steps[1..])
  }
}
