/** What later steps can still add: consequences of a failed policy check, and what
    in-order command delivery does to returned payouts. */
module PayoutOrder {
  import opened PaymentCore
  import opened Ledger
  import opened PayoutSaga
  import opened Provider
  import opened PayoutProtocol
  import opened PayoutInvariant
  import opened PayoutTheorems

  // ---- Growth of the outbox ---------------------------------------------------

  predicate Late(s: SagaState) { s == Returning || s == Returned }

  /** A command written now belongs to the region the saga is in now. */
  predicate Current(m: Message, saga: Option<Saga>) {
    m.Order? ==> saga.Some? && (m.command == PolicyEvaluate || IssuedInto(m.command, saga.value.state))
  }

  ghost predicate Extends(r: Row, r': Row) {
    && r.outbox <= r'.outbox
    && (forall j | |r.outbox| <= j < |r'.outbox| :: Current(r'.outbox[j].body, r'.saga))
    && (r.saga.Some? ==>
          && r'.saga.Some?
          && (Unwinding(r.saga.value.state) ==> Unwinding(r'.saga.value.state))
          && (Late(r.saga.value.state) ==> Late(r'.saga.value.state)))
  }

  lemma AdvanceExtends(r: Row, m: Move, now: int, id: nat)
    requires r.saga.Some? && Separated(r.saga.value.state, m)
    ensures Extends(r, Advance(r, m, now, id))
  {}

  lemma SagaStepExtends(t: Timeouts, r: Row, s: Step)
    requires t.Valid() && RowInv(r) && (s.Deliver? || s.Expire? || s.Review?)
    ensures Extends(r, Perform(t, r, s))
  {
    match s
    case Deliver(i, now, id) =>
      if i < |r.outbox| && r.outbox[i].body.Event? && r.saga.Some? {
        var event, reason := r.outbox[i].body.event, r.outbox[i].reason;
        if Transition(t, r.saga.value.state, event, reason).Some? {
          EventMovesSeparate(t, r.saga.value.state, event, reason);
          AdvanceExtends(r, Transition(t, r.saga.value.state, event, reason).value, now, id);
        }
      }
    case Expire(now, id) =>
      if Overdue(r.saga, now) {
        OtherMovesSeparate(t, r.saga.value.state, RetryReview, "");
        AdvanceExtends(r, TimeoutMove(t, r.saga.value.state), now, id);
      }
    case Review(action, operator, note, now, id) =>
      if r.saga.Some? && r.saga.value.state == ManualReview {
        OtherMovesSeparate(t, ManualReview, action, note);
        AdvanceExtends(r, ReviewMove(t, action, note), now, id);
      }
  }

  lemma ReplyExtends(r: Row, posted: Row, reply: SagaEvent, reason: string, id: nat)
    requires posted.outbox == r.outbox && posted.saga == r.saga
    ensures Extends(r, Reply(posted, reply, reason, id))
  {}

  lemma WorkExtends(t: Timeouts, r: Row, i: nat, decision: Decision, id: nat)
    ensures Extends(r, Perform(t, r, Work(i, decision, id)))
  {
    if i < |r.outbox| && r.outbox[i].body.Order? {
      var reason := r.outbox[i].reason;
      match r.outbox[i].body.command
      case PolicyEvaluate =>
        ReplyExtends(r, r, PolicyApproved, reason, id);
        if decision.Reject? { ReplyExtends(r, r, PolicyRejected, decision.reason, id); }
      case LedgerReserve => if Reserve(r).Posted? { ReplyExtends(r, Reserve(r).row, FundsReserved, reason, id); }
      case LedgerRelease => if Release(r).Posted? { ReplyExtends(r, Release(r).row, FundsReleased, reason, id); }
      case PaymentSettle => if Settle(r).Posted? { ReplyExtends(r, Settle(r).row, PayoutCompleted, reason, id); }
      case PaymentFail => ReplyExtends(r, r.(status := Failed, timeline := r.timeline + [Failed]), PayoutFailed, reason, id);
      case PaymentFailReserved => ReplyExtends(r, r.(status := Failed, timeline := r.timeline + [Failed]), PayoutFailed, reason, id);
      case PaymentReturn => ReplyExtends(r, r.(timeline := r.timeline + [Failed]), FundsReturned, reason, id);
      case SettlementExecute =>
    }
  }

  lemma SendOnceExtends(r: Row, base: Row, id: EventId, clash: bool, body: Message, reason: string)
    requires base.outbox == r.outbox && base.saga == r.saga && !body.Order?
    ensures Extends(r, SendOnce(base, id, clash, body, reason))
  {}

  lemma SagaResultExtends(r: Row, base: Row, svix: string, status: SettlementStatus, clash: bool)
    requires base.outbox == r.outbox && base.saga == r.saga
    ensures Extends(r, SendSagaResult(base, svix, status, clash))
  {
    match status
    case SettlementCompleted => SendOnceExtends(r, base, FromDelivery(svix), clash, Event(ProviderCompleted), "");
    case SettlementRefunded => SendOnceExtends(r, base, FromDelivery(svix), clash, Event(ProviderReturned), "refunded");
    case SettlementOnHold => SendOnceExtends(r, base, FromDelivery(svix), clash, Event(ProviderHeld), "settlement on hold");
    case _ => SendOnceExtends(r, base, FromDelivery(svix), clash, Event(ProviderFailed), "failed");
  }

  lemma WebhookExtends(r: Row, svix: string, status: SettlementStatus, clash: bool)
    ensures Extends(r, Webhook(r, svix, status, clash))
  {
    SagaResultExtends(r, r, svix, status, clash);
    if r.payout.Some? {
      var updated := r.(payout := Some(r.payout.value.(status := status)));
      SagaResultExtends(r, updated, svix, status, clash);
      var posting := RecordReturn(updated, svix);
      if posting.Posted? {
        SendOnceExtends(r, posting.row, FromDelivery(svix), clash, Public(NoticeReturned), "provider returned funds after completed payout");
      }
    }
  }

  lemma ProviderStepExtends(t: Timeouts, r: Row, s: Step)
    requires s.Call? || s.Record? || s.Apply? || s.Crash?
    ensures Extends(r, Perform(t, r, s))
  {
    if s.Apply? && r.worker.Finished? {
      var result := r.worker.result;
      var base := ApplyResult(r, s.clash).(outbox := r.outbox);
      if ResultEvent(result).Some? {
        SendOnceExtends(r, base, ResultOf(r.worker.command), s.clash, Event(ResultEvent(result).value), ResultReason(result));
      }
    }
  }

  lemma StepExtends(t: Timeouts, r: Row, s: Step)
    requires t.Valid() && RowInv(r)
    ensures Extends(r, Perform(t, r, s))
  {
    match s
    case Work(i, decision, id) => WorkExtends(t, r, i, decision, id);
    case Notify(svix, status, clash) => WebhookExtends(r, svix, status, clash);
    case Call(_) | Record | Apply(_) | Crash => ProviderStepExtends(t, r, s);
    case _ => SagaStepExtends(t, r, s);
  }

  lemma {:induction false} BodiesIndex(outbox: seq<OutboxEvent>, m: Message) returns (i: nat)
    requires m in Bodies(outbox)
    ensures i < |outbox| && outbox[i].body == m
  {
    var last := |outbox| - 1;
    if outbox[last].body == m {
      i := last;
    } else {
      i := BodiesIndex(outbox[..last], m);
    }
  }

  /** A command that the saga's new region cannot issue is not new. */
  lemma NotIssued(r: Row, r': Row, c: Command)
    requires Extends(r, r') && r'.saga.Some? && c != PolicyEvaluate && !IssuedInto(c, r'.saga.value.state)
    ensures Ordered(r', c) ==> Ordered(r, c)
  {
    if Ordered(r', c) {
      var i := BodiesIndex(r'.outbox, Order(c));
      assert i < |r.outbox| && r.outbox[i] == r'.outbox[i];
      BodiesIn(r.outbox, i);
    }
  }

  // ---- A payout that fails at policy ------------------------------------------

  /** Unwinding without ever having asked for a reservation. */
  ghost predicate Unreserved(r: Row) {
    RowInv(r) && r.saga.Some? && Unwinding(r.saga.value.state) && !Ordered(r, LedgerReserve)
  }

  lemma {:induction false} UnreservedForever(t: Timeouts, r: Row, steps: seq<Step>)
    requires t.Valid() && Unreserved(r)
    ensures Unreserved(Run(t, r, steps))
    decreases |steps|
  {
    if steps != [] {
      var r' := Perform(t, r, steps[0]);
      PerformKeeps(t, r, steps[0]);
      StepExtends(t, r, steps[0]);
      NotIssued(r, r', LedgerReserve);
      UnreservedForever(t, r', steps[1..]);
    }
  }

  /** If a step takes a saga from awaiting_policy to failed, whether by rejection or by
      timeout, no later step ever posts a journal or calls the provider. */
  lemma PolicyFailureIsFinal(t: Timeouts, r0: Row, before: seq<Step>, s: Step, after: seq<Step>)
    requires t.Valid() && Fresh(r0)
    requires var r := Run(t, r0, before);
      && r.saga.Some? && r.saga.value.state == AwaitingPolicy
      && Perform(t, r, s).saga.Some? && Perform(t, r, s).saga.value.state == SagaFailed
    ensures var r := Run(t, Perform(t, Run(t, r0, before), s), after);
      r.journals == [] && r.entries == [] && r.calls == [] && r.status in {Created, Failed}
  {
    Reached(t, r0, before);
    var r := Run(t, r0, before);
    PerformKeeps(t, r, s);
    StepExtends(t, r, s);
    NotIssued(r, Perform(t, r, s), LedgerReserve);
    UnreservedForever(t, Perform(t, r, s), after);
  }

  // ---- In-order command delivery ----------------------------------------------

  predicate IsFail(m: Message) { m == Order(PaymentFail) || m == Order(PaymentFailReserved) }

  function Taken(r: Row, done: set<nat>, i: nat): set<nat> { if i < |r.outbox| then done + {i} else done }

  /** Commands of the payment are worked in outbox order: one is only taken when every
      earlier one has been taken. Redelivery is still allowed. */
  predicate InOrder(t: Timeouts, r: Row, done: set<nat>, steps: seq<Step>)
    decreases |steps|
  {
    steps == [] ||
    if steps[0].Work? then
      && (forall j | 0 <= j < |r.outbox| && j < steps[0].i && r.outbox[j].body.Order? :: j in done)
      && InOrder(t, Perform(t, r, steps[0]), Taken(r, done, steps[0].i), steps[1..])
    else InOrder(t, Perform(t, r, steps[0]), done, steps[1..])
  }

  /** What in-order delivery adds to the invariant. */
  ghost predicate OrderInv(r: Row, done: set<nat>) {
    && RowInv(r)
    && (forall i | i in done :: i < |r.outbox|)
    && (forall i, j | 0 <= i < j < |r.outbox| :: r.outbox[i].body == Order(LedgerRelease) ==> !IsFail(r.outbox[j].body))
    && (forall i | i in done && IsFail(r.outbox[i].body) :: r.status == Failed)
    && (ReleasedJournal in r.journals ==> forall j | 0 <= j < |r.outbox| :: !IsFail(r.outbox[j].body))
  }

  /** New messages put no failure behind a release. */
  lemma OrderGrows(r: Row, r': Row)
    requires RowInv(r) && RowInv(r') && Extends(r, r')
    requires forall i, j | 0 <= i < j < |r.outbox| :: r.outbox[i].body == Order(LedgerRelease) ==> !IsFail(r.outbox[j].body)
    ensures forall i, j | 0 <= i < j < |r'.outbox| :: r'.outbox[i].body == Order(LedgerRelease) ==> !IsFail(r'.outbox[j].body)
    ensures Ordered(r', LedgerRelease) ==> forall j | |r.outbox| <= j < |r'.outbox| :: !IsFail(r'.outbox[j].body)
  {
    forall i, j | 0 <= i < j < |r'.outbox| && r'.outbox[i].body == Order(LedgerRelease)
      ensures !IsFail(r'.outbox[j].body)
    {
      BodiesIn(r'.outbox, i);
      if j < |r.outbox| {
        assert r.outbox[i] == r'.outbox[i] && r.outbox[j] == r'.outbox[j];
      }
    }
  }

  /** Failed and succeeded are final, whatever is delivered. */
  lemma OutcomesAreFinal(t: Timeouts, r: Row, s: Step)
    ensures r.status == Failed ==> Perform(t, r, s).status == Failed
    ensures r.status == Succeeded ==> Perform(t, r, s).status == Succeeded
  {}

  predicate WorksOn(r: Row, s: Step, c: Command) {
    s.Work? && s.i < |r.outbox| && r.outbox[s.i].body == Order(c)
  }

  lemma WebhookReleasesNothing(r: Row, svix: string, status: SettlementStatus, clash: bool)
    ensures ReleasedJournal in Webhook(r, svix, status, clash).journals ==> ReleasedJournal in r.journals
  {}

  lemma OnlyReleaseReleases(t: Timeouts, r: Row, s: Step)
    requires ReleasedJournal !in r.journals && ReleasedJournal in Perform(t, r, s).journals
    ensures WorksOn(r, s, LedgerRelease) && r.status == Processing
  {
    match s
    case Notify(svix, status, clash) => WebhookReleasesNothing(r, svix, status, clash);
    case Work(i, decision, id) =>
      if i < |r.outbox| && r.outbox[i].body.Order? {
        OtherCommandsReleaseNothing(r, r.outbox[i].id, r.outbox[i].body.command, r.outbox[i].reason, decision, id);
      }
    case _ =>
  }

  lemma OtherCommandsReleaseNothing(r: Row, message: EventId, command: Command, reason: string, decision: Decision, id: nat)
    requires ReleasedJournal !in r.journals && ReleasedJournal in HandleCommand(r, message, command, reason, decision, id).journals
    ensures command == LedgerRelease && r.status == Processing
  {}

  lemma FailureTakesEffect(t: Timeouts, r: Row, s: Step)
    requires RowInv(r) && (WorksOn(r, s, PaymentFail) || WorksOn(r, s, PaymentFailReserved))
    ensures Perform(t, r, s).status == Failed
  {
    BodiesIn(r.outbox, s.i);
    FailedNeverSucceeded(r);
  }

  lemma FailedNeverSucceeded(r: Row)
    requires RowInv(r) && (Ordered(r, PaymentFail) || Ordered(r, PaymentFailReserved))
    ensures r.status != Succeeded
  {}

  /** A release that posts under in-order delivery has no failure command anywhere. */
  lemma ReleaseMeansNoFailure(r: Row, done: set<nat>, s: Step)
    requires OrderInv(r, done) && WorksOn(r, s, LedgerRelease) && r.status == Processing
    requires forall j | 0 <= j < |r.outbox| && j < s.i && r.outbox[j].body.Order? :: j in done
    ensures forall j | 0 <= j < |r.outbox| :: !IsFail(r.outbox[j].body)
  {
    forall j | 0 <= j < |r.outbox|
      ensures !IsFail(r.outbox[j].body)
    {
      if s.i < j {
        assert !IsFail(r.outbox[j].body);
      } else if j < s.i && r.outbox[j].body.Order? {
        assert j in done;
      }
    }
  }

  lemma DoneFailuresStick(t: Timeouts, r: Row, done: set<nat>, s: Step, i: nat)
    requires OrderInv(r, done) && r.outbox <= Perform(t, r, s).outbox
    requires i in done || (s.Work? && s.i == i && i < |r.outbox|)
    requires i < |r.outbox| && IsFail(r.outbox[i].body)
    ensures Perform(t, r, s).status == Failed
  {
    if i in done {
      OutcomesAreFinal(t, r, s);
    } else {
      FailureTakesEffect(t, r, s);
    }
  }

  lemma OrderKeeps(t: Timeouts, r: Row, done: set<nat>, s: Step, rest: seq<Step>)
    requires t.Valid() && OrderInv(r, done) && InOrder(t, r, done, [s] + rest)
    ensures OrderInv(Perform(t, r, s), if s.Work? then Taken(r, done, s.i) else done)
  {
    var r', done' := Perform(t, r, s), if s.Work? then Taken(r, done, s.i) else done;
    PerformKeeps(t, r, s);
    StepExtends(t, r, s);
    OrderGrows(r, r');
    forall i | i in done' && IsFail(r'.outbox[i].body)
      ensures r'.status == Failed
    {
      assert r.outbox[i] == r'.outbox[i];
      DoneFailuresStick(t, r, done, s, i);
    }
    if ReleasedJournal in r'.journals {
      if ReleasedJournal !in r.journals {
        OnlyReleaseReleases(t, r, s);
        ReleaseMeansNoFailure(r, done, s);
      }
      forall j | 0 <= j < |r'.outbox|
        ensures !IsFail(r'.outbox[j].body)
      {
        assert j < |r.outbox| ==> r.outbox[j] == r'.outbox[j];
      }
    }
  }

  lemma {:induction false} InOrderRun(t: Timeouts, r: Row, done: set<nat>, steps: seq<Step>) returns (taken: set<nat>)
    requires t.Valid() && OrderInv(r, done) && InOrder(t, r, done, steps)
    ensures OrderInv(Run(t, r, steps), taken)
    decreases |steps|
  {
    if steps == [] {
      taken := done;
    } else {
      assert steps == [steps[0]] + steps[1..];
      OrderKeeps(t, r, done, steps[0], steps[1..]);
      taken := InOrderRun(t, Perform(t, r, steps[0]), if steps[0].Work? then Taken(r, done, steps[0].i) else done, steps[1..]);
    }
  }

  /** The documented outcome of a returned payout, a failed payment, never comes about
      under in-order delivery: payment.return is refused in every state, and a saga in
      `returned` leaves its payment in processing. */
  lemma ReturnedPayoutsStayProcessing(t: Timeouts, r0: Row, steps: seq<Step>, reason: string, id: nat)
    requires t.Valid() && Fresh(r0) && InOrder(t, r0, {}, steps)
    ensures var r := Run(t, r0, steps);
      && ReturnPayment(r, reason, id) == r
      && (r.saga.Some? && r.saga.value.state == Returned ==> r.status == Processing)
  {
    Reached(t, r0, []);
    assert OrderInv(r0, {});
    var r := Run(t, r0, steps);
    var taken := InOrderRun(t, r0, {}, steps);
    if r.status == Failed {
      var c := if Ordered(r, PaymentFail) then PaymentFail else PaymentFailReserved;
      var i := BodiesIndex(r.outbox, Order(c));
      assert ReleasedJournal !in r.journals;
    }
  }
}
