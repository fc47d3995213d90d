/** The payout saga: states, events, commands, and the three sources of moves
    (workflow events, timeouts, manual review). */
module PayoutSaga {
  import opened PaymentCore

  datatype SagaState =
    | AwaitingPolicy | AwaitingLedger | AwaitingSettlement | OnHold | ManualReview
    | ReleasingLedger | Returning | SettlingPayment | SagaCompleted | LedgerReleased
    | SagaFailed | Returned

  /** Messages on the payout-events topic. */
  datatype SagaEvent =
    | PayoutCreated | PolicyApproved | PolicyRejected | FundsReserved | LedgerFailed
    | ProviderCompleted | ProviderFailed | ProviderReturned | ProviderHeld
    | PayoutCompleted | PayoutFailed | FundsReleased | FundsReturned

  /** Messages on the settlement-commands topic. */
  datatype Command =
    | PolicyEvaluate | LedgerReserve | SettlementExecute | LedgerRelease
    | PaymentSettle | PaymentFail | PaymentFailReserved | PaymentReturn

  datatype Timeouts = Timeouts(policy: int, ledger: int, settlement: int, compliance: int) {
    predicate Valid() {
      0 < policy && 0 < ledger && 0 < settlement && 0 < compliance
    }
  }

  /** A state change; timeout 0 clears the deadline. */
  datatype Move = Move(next: SagaState, command: Option<Command>, timeout: int, failure: string)

  datatype ReviewAction = RetryReview | CompleteReview | FailReview | ReturnReview

  const MINUTE: int := 60_000_000_000

  /** SagaConfig */
  datatype Config = Config(timeouts: Timeouts, batch: int) {
    predicate Negative() {
      timeouts.policy < 0 || timeouts.ledger < 0 || timeouts.settlement < 0 || timeouts.compliance < 0 || batch < 0
    }

    predicate Usable() { timeouts.Valid() && batch > 0 }

    /** A setting that is given is kept, and one that is left at zero takes the default. */
    predicate Completes(given: Config, defaults: Config) {
      && timeouts.policy == (if given.timeouts.policy != 0 then given.timeouts.policy else defaults.timeouts.policy)
      && timeouts.ledger == (if given.timeouts.ledger != 0 then given.timeouts.ledger else defaults.timeouts.ledger)
      && timeouts.settlement == (if given.timeouts.settlement != 0 then given.timeouts.settlement else defaults.timeouts.settlement)
      && timeouts.compliance == (if given.timeouts.compliance != 0 then given.timeouts.compliance else defaults.timeouts.compliance)
      && batch == (if given.batch != 0 then given.batch else defaults.batch)
    }
  }

  const DEFAULTS := Config(Timeouts(MINUTE, MINUTE, 10 * MINUTE, 24 * 60 * MINUTE), 100)

  /** NewSagaCoordinator: negative settings are refused and zero means the default. */
  method Configure(config: Config) returns (r: Option<Config>)
    ensures r.None? <==> config.Negative()
    ensures r.Some? ==> r.value.Usable() && r.value.Completes(config, DEFAULTS)
  {
    if config.Negative() {
      return None;
    }
    var c := config;
    if c.timeouts.policy == 0 {
      c := c.(timeouts := c.timeouts.(policy := MINUTE));
    }
    if c.timeouts.ledger == 0 {
      c := c.(timeouts := c.timeouts.(ledger := MINUTE));
    }
    if c.timeouts.settlement == 0 {
      c := c.(timeouts := c.timeouts.(settlement := 10 * MINUTE));
    }
    if c.timeouts.compliance == 0 {
      c := c.(timeouts := c.timeouts.(compliance := 24 * 60 * MINUTE));
    }
    if c.batch == 0 {
      c := c.(batch := 100);
    }
    r := Some(c);
  }

  function OrDefault(reason: string, fallback: string): string {
    if reason != "" then reason else fallback
  }

  /** transition: None means that the event is invalid in this state. */
  function Transition(t: Timeouts, state: SagaState, event: SagaEvent, reason: string): Option<Move> {
    match (state, event)
    case (AwaitingPolicy, PolicyApproved) => Some(Move(AwaitingLedger, Some(LedgerReserve), t.ledger, ""))
    case (AwaitingPolicy, PolicyRejected) => Some(Move(SagaFailed, Some(PaymentFail), 0, OrDefault(reason, "policy rejected")))
    case (AwaitingLedger, FundsReserved) => Some(Move(AwaitingSettlement, Some(SettlementExecute), t.settlement, ""))
    case (AwaitingLedger, LedgerFailed) => Some(Move(SagaFailed, Some(PaymentFail), 0, OrDefault(reason, "ledger reservation failed")))
    case (AwaitingSettlement, ProviderCompleted) => Some(Move(SettlingPayment, Some(PaymentSettle), t.ledger, ""))
    case (AwaitingSettlement, ProviderHeld) => Some(Move(OnHold, None, t.compliance, OrDefault(reason, "settlement on hold")))
    case (OnHold, ProviderCompleted) => Some(Move(SettlingPayment, Some(PaymentSettle), t.ledger, ""))
    case (OnHold, ProviderFailed) => Some(Move(SagaFailed, Some(PaymentFailReserved), 0, OrDefault(reason, "settlement failed")))
    case (OnHold, ProviderReturned) => Some(Move(Returning, Some(LedgerRelease), t.ledger, OrDefault(reason, "settlement funds returned")))
    case (SettlingPayment, PayoutCompleted) => Some(Move(SagaCompleted, None, 0, ""))
    case (SettlingPayment, ProviderCompleted) => Some(Move(SettlingPayment, None, t.ledger, ""))
    case (AwaitingSettlement, ProviderFailed) =>
      if reason == "submission_failed" then Some(Move(SagaFailed, Some(PaymentFail), 0, reason))
      else Some(Move(SagaFailed, Some(PaymentFailReserved), 0, OrDefault(reason, "settlement failed")))
    case (AwaitingSettlement, ProviderReturned) => Some(Move(Returning, Some(LedgerRelease), t.ledger, OrDefault(reason, "settlement funds returned")))
    case (SagaFailed, ProviderReturned) =>
      Some(Move(Returning, Some(LedgerRelease), t.ledger, OrDefault(reason, "settlement funds returned after payment failure")))
    case (SagaFailed, PayoutFailed) => Some(Move(SagaFailed, None, 0, reason))
    case (ReleasingLedger, FundsReleased) => Some(Move(LedgerReleased, Some(PaymentFail), 0, reason))
    case (Returning, FundsReleased) => Some(Move(Returned, Some(PaymentReturn), 0, reason))
    case _ => None
  }

  /** The states that the timeout query selects. */
  predicate Expirable(state: SagaState) {
    match state
    case AwaitingPolicy | AwaitingLedger | AwaitingSettlement | OnHold | ReleasingLedger | Returning | SettlingPayment => true
    case _ => false
  }

  /** settlement_sagas.state as stored */
  function Name(state: SagaState): string {
    match state
    case AwaitingPolicy => "awaiting_policy"
    case AwaitingLedger => "awaiting_ledger"
    case AwaitingSettlement => "awaiting_settlement"
    case OnHold => "on_hold"
    case ManualReview => "manual_review"
    case ReleasingLedger => "releasing_ledger"
    case Returning => "returning"
    case SettlingPayment => "settling_payment"
    case SagaCompleted => "completed"
    case LedgerReleased => "ledger_released"
    case SagaFailed => "failed"
    case Returned => "returned"
  }

  /** What ExpireOnce does to one claimed saga. */
  function TimeoutMove(t: Timeouts, state: SagaState): Move {
    var failure := Name(state) + " timeout";
    match state
    case AwaitingSettlement => Move(AwaitingSettlement, Some(SettlementExecute), t.settlement, failure)
    case OnHold => Move(ManualReview, None, 0, failure)
    case Returning => Move(Returning, Some(LedgerRelease), t.ledger, failure)
    case SettlingPayment => Move(SettlingPayment, Some(PaymentSettle), t.ledger, failure)
    case _ => Move(SagaFailed, Some(PaymentFail), 0, failure)
  }

  /** What an operator decision does to a saga in manual review. */
  function ReviewMove(t: Timeouts, action: ReviewAction, note: string): Move {
    match action
    case RetryReview => Move(OnHold, None, t.compliance, note)
    case CompleteReview => Move(SettlingPayment, Some(PaymentSettle), t.ledger, note)
    case FailReview => Move(SagaFailed, Some(PaymentFailReserved), 0, note)
    case ReturnReview => Move(Returning, Some(LedgerRelease), t.ledger, note)
  }

  predicate Settling(state: SagaState) { state.SettlingPayment? || state.SagaCompleted? }
  predicate Unwinding(state: SagaState) { state.SagaFailed? || state.Returning? || state.Returned? }
  predicate Dead(state: SagaState) { state.ReleasingLedger? || state.LedgerReleased? }

  /** The region of the saga graph that a command may only be issued into. */
  predicate IssuedInto(c: Command, next: SagaState) {
    match c
    case PaymentSettle => next == SettlingPayment
    case PaymentFail | PaymentFailReserved => next == SagaFailed
    case LedgerRelease => next == Returning
    case PaymentReturn => next == Returned
    case LedgerReserve => next == AwaitingLedger
    case SettlementExecute => next == AwaitingSettlement
    case PolicyEvaluate => false
  }

  /** What every coordinator move respects: settling and unwinding are closed regions,
      the release and return stages are never left backwards, a command is only issued
      into its own region, and a deadline is set exactly for the states that can expire. */
  predicate Separated(state: SagaState, m: Move) {
    && !Dead(m.next) && m.next != AwaitingPolicy
    && (m.command.Some? ==> IssuedInto(m.command.value, m.next))
    && (Settling(state) ==> Settling(m.next))
    && (Unwinding(state) ==> Unwinding(m.next))
    && (state == Returning ==> m.next == Returning || m.next == Returned)
    && (m.next == Returned ==> m.command == Some(PaymentReturn))
    && (m.next == Returning ==> m.command == Some(LedgerRelease))
    && (m.next == AwaitingLedger ==> state == AwaitingPolicy && m.command == Some(LedgerReserve))
    && state != Returned
    && (m.timeout > 0 <==> Expirable(m.next))
  }

  lemma EventMovesSeparate(t: Timeouts, state: SagaState, event: SagaEvent, reason: string)
    requires t.Valid() && !Dead(state) && Transition(t, state, event, reason).Some?
    ensures Separated(state, Transition(t, state, event, reason).value)
  {}

  lemma OtherMovesSeparate(t: Timeouts, state: SagaState, action: ReviewAction, note: string)
    requires t.Valid() && !Dead(state)
    ensures Expirable(state) ==> Separated(state, TimeoutMove(t, state))
    ensures Separated(ManualReview, ReviewMove(t, action, note))
  {}

  // ---- Waiting for replies ----------------------------------------------------

  /** The command whose outcome a state waits for. */
  function Outstanding(state: SagaState): Option<Command> {
    match state
    case AwaitingPolicy => Some(PolicyEvaluate)
    case AwaitingLedger => Some(LedgerReserve)
    case AwaitingSettlement => Some(SettlementExecute)
    case ReleasingLedger | Returning => Some(LedgerRelease)
    case SettlingPayment => Some(PaymentSettle)
    case SagaFailed => Some(PaymentFail)
    case OnHold | ManualReview | SagaCompleted | LedgerReleased | Returned => None
  }

  /** The event reports an outcome of the command. */
  predicate Reports(event: SagaEvent, command: Command) {
    match event
    case PolicyApproved | PolicyRejected => command == PolicyEvaluate
    case FundsReserved | LedgerFailed => command == LedgerReserve
    case ProviderCompleted | ProviderFailed | ProviderReturned | ProviderHeld => command == SettlementExecute
    case PayoutCompleted => command == PaymentSettle
    case PayoutFailed => command == PaymentFail || command == PaymentFailReserved
    case FundsReleased => command == LedgerRelease
    case PayoutCreated | FundsReturned => false
  }

  /** Provider news that may come after the saga has moved on. */
  predicate LateNews(state: SagaState, event: SagaEvent) {
    || (state == OnHold && (event == ProviderCompleted || event == ProviderFailed || event == ProviderReturned))
    || (state == SettlingPayment && event == ProviderCompleted)
    || (state == SagaFailed && event == ProviderReturned)
  }

  /** A state accepts exactly the outcomes of the command it waits for, and late provider
      news; so no reply to an outstanding command is ever refused. */
  lemma AcceptsExactlyReplies(t: Timeouts, state: SagaState, event: SagaEvent, reason: string)
    ensures Transition(t, state, event, reason).Some?
       <==> (Outstanding(state).Some? && Reports(event, Outstanding(state).value)) || LateNews(state, event)
  {
    match event
    case PayoutCreated | FundsReturned =>
    case _ =>
  }

  /** Where an event leads, whatever state accepts it. */
  function Target(event: SagaEvent): SagaState {
    match event
    case PolicyApproved => AwaitingLedger
    case FundsReserved => AwaitingSettlement
    case ProviderHeld => OnHold
    case ProviderCompleted => SettlingPayment
    case PayoutCompleted => SagaCompleted
    case ProviderReturned => Returning
    case FundsReleased => Returned
    case PolicyRejected | LedgerFailed | ProviderFailed | PayoutFailed | PayoutCreated | FundsReturned => SagaFailed
  }

  /** Outside the unreachable release stage the event alone decides where the saga goes; a
      provider failure unwinds a reservation unless the submission itself was refused. */
  lemma EventDecidesTarget(t: Timeouts, state: SagaState, event: SagaEvent, reason: string)
    requires Transition(t, state, event, reason).Some? && state != ReleasingLedger
    ensures var m := Transition(t, state, event, reason).value;
      && m.next == Target(event)
      && (m.command == Some(PaymentFailReserved) <==> event == ProviderFailed && !(state == AwaitingSettlement && reason == "submission_failed"))
  {
    match event
    case ProviderFailed | ProviderReturned =>
    case _ =>
  }

  /** The time a state is given. */
  function Budget(t: Timeouts, state: SagaState): int {
    match state
    case AwaitingPolicy => t.policy
    case AwaitingLedger | Returning | SettlingPayment => t.ledger
    case AwaitingSettlement => t.settlement
    case OnHold => t.compliance
    case _ => 0
  }

  /** Whatever moves a saga into a state, the state gets its own budget, and a command is
      issued on entering every state that waits for one. */
  lemma EventMovesGrantBudgets(t: Timeouts, state: SagaState, event: SagaEvent, reason: string)
    requires Transition(t, state, event, reason).Some?
    ensures var m := Transition(t, state, event, reason).value;
      && m.timeout == Budget(t, m.next)
      && (m.next != state && m.next != SagaFailed ==> m.command == Outstanding(m.next) || m.next == Returned || m.next == LedgerReleased)
  {
    match state
    case AwaitingSettlement | OnHold | SettlingPayment =>
    case _ =>
  }

  lemma OtherMovesGrantBudgets(t: Timeouts, state: SagaState, action: ReviewAction, note: string)
    ensures Expirable(state) ==> TimeoutMove(t, state).timeout == Budget(t, TimeoutMove(t, state).next)
    ensures Expirable(state) && TimeoutMove(t, state).next == state ==> TimeoutMove(t, state).command == Outstanding(state)
    ensures ReviewMove(t, action, note).timeout == Budget(t, ReviewMove(t, action, note).next)
  {
    match state
    case AwaitingSettlement | OnHold | SettlingPayment =>
    case _ =>
  }
}
