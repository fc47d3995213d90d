/** How a payout's saga moves in every run: which events it accepts and where they lead, how
    long it may stay, and that a finished saga rests. */
module PayoutStages {
  import opened PaymentCore
  import opened Ledger
  import opened PayoutSaga
  import opened Provider
  import opened PayoutProtocol
  import opened PayoutInvariant
  import opened PayoutTheorems

  // ---- Events -----------------------------------------------------------------

  /** The event reports on the command the state waits for, or is admitted late news. */
  predicate Awaits(state: SagaState, event: SagaEvent) {
    (Outstanding(state).Some? && Reports(event, Outstanding(state).value)) || LateNews(state, event)
  }

  /** The deadline of a state that was entered, or asked for again, at `since`. */
  function Granted(t: Timeouts, state: SagaState, since: int): Option<int> {
    if Budget(t, state) > 0 then Some(since + Budget(t, state)) else None
  }

  /** The row after an event in a given state: unchanged, or in the event's target state with
      its budget and with the command that it waits for. */
  predicate Decided(t: Timeouts, r: Row, event: SagaEvent, r': Row, now: int, id: nat)
    requires r.saga.Some?
  {
    var state, target := r.saga.value.state, Target(event);
    if !Awaits(state, event) then r' == r
    else
      && r'.saga.Some? && r'.saga.value.state == target && r'.saga.value.deadline == Granted(t, target, now)
      && (Outstanding(target).Some? && target != state && target != SagaFailed ==>
            |r'.outbox| == |r.outbox| + 1 && r'.outbox[|r.outbox|].id == Generated(id)
            && r'.outbox[|r.outbox|].body == Order(Outstanding(target).value))
  }

  lemma AdvanceDecides(t: Timeouts, r: Row, m: Move, event: SagaEvent, now: int, id: nat)
    requires r.saga.Some? && Awaits(r.saga.value.state, event) && m.next == Target(event) && m.timeout == Budget(t, m.next)
    requires m.next != r.saga.value.state && m.next != SagaFailed ==> m.command == Outstanding(m.next) || m.next == Returned || m.next == LedgerReleased
    ensures Decided(t, r, event, Advance(r, m, now, id), now, id)
  {}

  lemma DeliveryMoves(t: Timeouts, r: Row, event: SagaEvent, reason: string, now: int, id: nat)
    requires r.saga.Some? && r.saga.value.state != ReleasingLedger
    ensures Decided(t, r, event, HandleEvent(t, r, event, reason, now, id), now, id)
  {
    var state := r.saga.value.state;
    AcceptsExactlyReplies(t, state, event, reason);
    if Awaits(state, event) {
      EventDecidesTarget(t, state, event, reason);
      EventMovesGrantBudgets(t, state, event, reason);
      AdvanceDecides(t, r, Transition(t, state, event, reason).value, event, now, id);
    }
  }

  /** In every reachable state a delivered event either reports what the saga waits for, or
      is late news: then the event alone decides the new state, the state gets its own
      budget, and the command it waits for is issued. Any other event changes nothing. */
  lemma DeliveredEventsDecide(t: Timeouts, r0: Row, steps: seq<Step>, i: nat, now: int, id: nat)
    requires t.Valid() && Fresh(r0)
    requires var r := Run(t, r0, steps); i < |r.outbox| && r.outbox[i].body.Event? && r.saga.Some?
    ensures var r := Run(t, r0, steps); Decided(t, r, r.outbox[i].body.event, Perform(t, r, Deliver(i, now, id)), now, id)
  {
    Reached(t, r0, steps);
    var r := Run(t, r0, steps);
    DeliveryMoves(t, r, r.outbox[i].body.event, r.outbox[i].reason, now, id);
  }

  // ---- Deadlines --------------------------------------------------------------

  /** The step moves the saga, or grants its state another period. */
  predicate Moves(t: Timeouts, r: Row, s: Step) {
    match s
    case Deliver(i, _, _) =>
      && i < |r.outbox| && r.outbox[i].body.Event?
      && (if r.saga.None? then r.outbox[i].body.event == PayoutCreated else Awaits(r.saga.value.state, r.outbox[i].body.event))
    case Expire(now, _) => Overdue(r.saga, now)
    case Review(_, operator, note, _, _) => operator != "" && note != "" && r.saga.Some? && r.saga.value.state == ManualReview
    case _ => false
  }

  /** When the saga was last moved. */
  function LastMove(t: Timeouts, r: Row, steps: seq<Step>, since: int): int
    decreases |steps|
  {
    if steps == [] then since
    else LastMove(t, Perform(t, r, steps[0]), steps[1..], if Moves(t, r, steps[0]) then steps[0].now else since)
  }

  ghost predicate OnBudget(t: Timeouts, saga: Option<Saga>, since: int) {
    saga.Some? ==> saga.value.deadline == Granted(t, saga.value.state, since)
  }

  lemma WorkKeepsSaga(r: Row, message: EventId, command: Command, reason: string, decision: Decision, id: nat)
    ensures HandleCommand(r, message, command, reason, decision, id).saga == r.saga
  {}

  lemma WebhookKeepsSaga(r: Row, svix: string, status: SettlementStatus, clash: bool)
    ensures Webhook(r, svix, status, clash).saga == r.saga
  {}

  lemma OthersKeepSaga(t: Timeouts, r: Row, s: Step)
    requires !s.Deliver? && !s.Expire? && !s.Review?
    ensures Perform(t, r, s).saga == r.saga
  {
    match s
    case Work(i, decision, id) =>
      if i < |r.outbox| && r.outbox[i].body.Order? {
        WorkKeepsSaga(r, r.outbox[i].id, r.outbox[i].body.command, r.outbox[i].reason, decision, id);
      }
    case Notify(svix, status, clash) => WebhookKeepsSaga(r, svix, status, clash);
    case _ =>
  }

  lemma StepOnBudget(t: Timeouts, r: Row, s: Step, since: int)
    requires t.Valid() && RowInv(r) && OnBudget(t, r.saga, since)
    ensures OnBudget(t, Perform(t, r, s).saga, if Moves(t, r, s) then s.now else since)
  {
    match s
    case Deliver(i, now, id) =>
      if i < |r.outbox| && r.outbox[i].body.Event? {
        EventOnBudget(t, r, r.outbox[i].body.event, r.outbox[i].reason, now, id, since);
      }
    case Expire(now, id) => ExpiryOnBudget(t, r, now, id, since);
    case Review(action, operator, note, now, id) => ReviewOnBudget(t, r, action, operator, note, now, id, since);
    case _ => OthersKeepSaga(t, r, s);
  }

  lemma ExpiryOnBudget(t: Timeouts, r: Row, now: int, id: nat, since: int)
    requires OnBudget(t, r.saga, since)
    ensures OnBudget(t, ExpireSaga(t, r, now, id).saga, if Overdue(r.saga, now) then now else since)
  {
    if r.saga.Some? { OtherMovesGrantBudgets(t, r.saga.value.state, RetryReview, ""); }
  }

  lemma ReviewOnBudget(t: Timeouts, r: Row, action: ReviewAction, operator: string, note: string, now: int, id: nat, since: int)
    requires OnBudget(t, r.saga, since)
    ensures OnBudget(t, ResolveReview(t, r, action, operator, note, now, id).saga,
                     if operator != "" && note != "" && r.saga.Some? && r.saga.value.state == ManualReview then now else since)
  {
    OtherMovesGrantBudgets(t, ManualReview, action, note);
  }

  lemma EventOnBudget(t: Timeouts, r: Row, event: SagaEvent, reason: string, now: int, id: nat, since: int)
    requires t.Valid() && OnBudget(t, r.saga, since) && (r.saga.Some? ==> r.saga.value.state != ReleasingLedger)
    ensures OnBudget(t, HandleEvent(t, r, event, reason, now, id).saga,
                     if (if r.saga.None? then event == PayoutCreated else Awaits(r.saga.value.state, event)) then now else since)
  {
    if r.saga.Some? { DeliveryMoves(t, r, event, reason, now, id); }
  }

  lemma {:induction false} RunOnBudget(t: Timeouts, r: Row, steps: seq<Step>, since: int)
    requires t.Valid() && RowInv(r) && OnBudget(t, r.saga, since)
    ensures OnBudget(t, Run(t, r, steps).saga, LastMove(t, r, steps, since))
    decreases |steps|
  {
    if steps != [] {
      StepOnBudget(t, r, steps[0], since);
      PerformKeeps(t, r, steps[0]);
      RunOnBudget(t, Perform(t, r, steps[0]), steps[1..], if Moves(t, r, steps[0]) then steps[0].now else since);
    }
  }

  /** In every run a saga's deadline is its state's budget after it was last moved, so no
      state expires before it has had its time. */
  lemma DeadlinesFollowMoves(t: Timeouts, r0: Row, steps: seq<Step>, now: int, id: nat)
    requires t.Valid() && Fresh(r0) && Run(t, r0, steps).saga.Some?
    ensures var r := Run(t, r0, steps); var since := LastMove(t, r0, steps, 0);
      && r.saga.value.deadline == Granted(t, r.saga.value.state, since)
      && (Perform(t, r, Expire(now, id)) != r ==> now >= since + Budget(t, r.saga.value.state))
  {
    Reached(t, r0, []);
    RunOnBudget(t, r0, steps, 0);
  }

  // ---- Finished sagas ---------------------------------------------------------

  /** Nothing is outstanding and no late news is admitted. */
  predicate AtRest(state: SagaState) { state == SagaCompleted || state == Returned }

  lemma {:induction false} FinishedSagasRest(t: Timeouts, r: Row, steps: seq<Step>)
    requires r.saga.Some? && AtRest(r.saga.value.state)
    ensures Run(t, r, steps).saga == r.saga
    decreases |steps|
  {
    if steps != [] {
      var s := steps[0];
      if s.Deliver? && s.i < |r.outbox| && r.outbox[s.i].body.Event? {
        AcceptsExactlyReplies(t, r.saga.value.state, r.outbox[s.i].body.event, r.outbox[s.i].reason);
      } else if !s.Deliver? && !s.Expire? && !s.Review? {
        OthersKeepSaga(t, r, s);
      }
      FinishedSagasRest(t, Perform(t, r, s), steps[1..]);
    }
  }
}
