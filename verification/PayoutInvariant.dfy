/** What holds of every payout in every reachable state. */
module PayoutInvariant {
  import opened PaymentCore
  import opened Ledger
  import opened PayoutSaga
  import opened Provider
  import opened PayoutProtocol

  // ---- What has been written to the outbox ------------------------------------

  function Bodies(outbox: seq<OutboxEvent>): set<Message> {
    if |outbox| == 0 then {} else Bodies(outbox[..|outbox| - 1]) + {outbox[|outbox| - 1].body}
  }

  predicate Ordered(r: Row, c: Command) { Order(c) in Bodies(r.outbox) }
  predicate Heard(r: Row, e: SagaEvent) { Event(e) in Bodies(r.outbox) }

  lemma BodiesSend(outbox: seq<OutboxEvent>, e: OutboxEvent)
    ensures Bodies(outbox + [e]) == Bodies(outbox) + {e.body}
  {
    assert (outbox + [e])[..|outbox|] == outbox;
  }

  lemma {:induction false} BodiesIn(outbox: seq<OutboxEvent>, i: nat)
    requires i < |outbox|
    ensures outbox[i].body in Bodies(outbox)
  {
    if i < |outbox| - 1 {
      BodiesIn(outbox[..|outbox| - 1], i);
    }
  }

  // ---- The invariant ----------------------------------------------------------

  predicate Funded(s: SagaState) {
    s.AwaitingSettlement? || s.OnHold? || s.ManualReview? || s.SettlingPayment? || s.SagaCompleted?
  }

  /** The command log agrees with the saga. */
  predicate CommandsFit(sent: set<Message>, saga: Option<Saga>, status: PaymentStatus, journals: seq<JournalKind>) {
    if saga.None? then sent == {Event(PayoutCreated), Public(NoticeCreated)}
    else
      var s := saga.value.state;
      && !Dead(s)
      && (Order(PaymentSettle) in sent ==> Settling(s))
      && (Order(PaymentFail) in sent || Order(PaymentFailReserved) in sent ==> Unwinding(s))
      && (Order(LedgerRelease) in sent <==> s == Returning || s == Returned)
      && (Order(PaymentReturn) in sent <==> s == Returned)
      && (Order(LedgerReserve) in sent ==> s != AwaitingPolicy && Event(PolicyApproved) in sent)
      && (s == AwaitingLedger || Funded(s) ==> Order(LedgerReserve) in sent)
      && (Order(SettlementExecute) in sent ==> s != AwaitingPolicy && s != AwaitingLedger && ProcessingJournal in journals)
      && (Funded(s) ==> ProcessingJournal in journals)
      && (s == SagaCompleted ==> status == Succeeded)
      && (s == Returned ==> ReleasedJournal in journals)
  }

  /** Replies and notices are only ever written by the transaction they report. */
  predicate RepliesFit(sent: set<Message>, status: PaymentStatus, journals: seq<JournalKind>) {
    && Event(LedgerFailed) !in sent
    && (Event(FundsReserved) in sent || Public(NoticeProcessing) in sent ==> ProcessingJournal in journals)
    && (Event(FundsReleased) in sent ==> ReleasedJournal in journals)
    && (Event(PayoutCompleted) in sent || Public(NoticeSucceeded) in sent ==> status == Succeeded)
    && (Event(PayoutFailed) in sent || Public(NoticeFailed) in sent ==> status == Failed)
    && (Public(NoticeReturned) in sent ==> ReturnJournal in journals)
  }

  /** The only journal histories a payout can have. */
  predicate JournalHistory(journals: seq<JournalKind>) {
    || journals == []
    || journals == [ProcessingJournal]
    || journals == [ProcessingJournal, ReleasedJournal]
    || journals == [ProcessingJournal, SucceededJournal]
    || journals == [ProcessingJournal, SucceededJournal, ReturnJournal]
  }

  /** Payment status, journals and commands agree. */
  predicate LedgerFits(sent: set<Message>, status: PaymentStatus, journals: seq<JournalKind>) {
    && JournalHistory(journals)
    && (status == Created ==> journals == [])
    && (status == Processing ==> ProcessingJournal in journals)
    && (status == Succeeded <==> SucceededJournal in journals)
    && (status == Succeeded ==> Order(PaymentSettle) in sent)
    && (status == Failed ==> Order(PaymentFail) in sent || Order(PaymentFailReserved) in sent)
    && (ReleasedJournal in journals ==> Order(LedgerRelease) in sent)
    && (journals != [] ==> Order(LedgerReserve) in sent)
  }

  predicate Follows(a: PaymentStatus, b: PaymentStatus) {
    match b
    case Created => a == Created
    case Processing => a == Created || a == Processing
    case Succeeded => a == Processing || a == Succeeded
    case Failed => a != Succeeded
  }

  ghost predicate HistoryFits(timeline: seq<PaymentStatus>, status: PaymentStatus) {
    && |timeline| > 0
    && timeline[|timeline| - 1] == status
    && forall i, j | 0 <= i < j < |timeline| && j == i + 1 :: Follows(timeline[i], timeline[j])
  }

  predicate DeadlineFits(saga: Option<Saga>) {
    saga.Some? ==> (saga.value.deadline.Some? <==> Expirable(saga.value.state))
  }

  /** The bound quote agrees with the payment. */
  predicate RouteFits(amount: int, currency: string, route: Option<Route>) {
    && amount > 0
    && (route.Some? ==> route.value.senderAmount == amount && route.value.currency == currency)
  }

  /** The durable attempt record agrees with the calls made. */
  predicate AttemptFits(sent: set<Message>, key: string, route: Option<Route>, payout: Option<Payout>, worker: Worker, calls: seq<ExecuteRequest>) {
    && (payout.None? ==> calls == [] && worker == Idle)
    && (payout.Some? ==> route.Some? && payout.value.key == key && Order(SettlementExecute) in sent)
    && (worker.Calling? || worker.Answered? ==> payout.Some? && payout.value.reference == "" && Unresolved(payout.value.status))
    && (worker.Calling? && payout.value.status == SubmissionPending ==> calls == [])
    && (forall c | c in calls :: route.Some? && c == ExecuteRequest(key, route.value.providerQuote))
  }

  /** A return journal, a payment_returns row and a refunded payout come together. */
  predicate ReturnFits(journals: seq<JournalKind>, payout: Option<Payout>, returned: seq<Return>, amount: int, currency: string) {
    if ReturnJournal in journals then
      && payout.Some? && payout.value.reference != "" && payout.value.status == SettlementRefunded
      && |returned| == 1 && returned[0].amount == amount && returned[0].currency == currency
    else returned == []
  }

  ghost predicate RowInv(r: Row) {
    var sent := Bodies(r.outbox);
    && CommandsFit(sent, r.saga, r.status, r.journals)
    && RepliesFit(sent, r.status, r.journals)
    && LedgerFits(sent, r.status, r.journals)
    && r.entries == AllLines(r.journals, r.amount, r.currency)
    && HistoryFits(r.timeline, r.status)
    && DeadlineFits(r.saga)
    && RouteFits(r.amount, r.currency, r.route)
    && AttemptFits(sent, r.key, r.route, r.payout, r.worker, r.calls)
    && ReturnFits(r.journals, r.payout, r.returned, r.amount, r.currency)
  }

  lemma NewRowInv(amount: int, currency: string, key: string, route: Option<Route>, id: nat)
    requires amount > 0
    requires route.Some? ==> route.value.senderAmount == amount && route.value.currency == currency
    ensures RowInv(NewRow(amount, currency, key, route, id))
  {
    var r := NewRow(amount, currency, key, route, id);
    BodiesSend([r.outbox[0]], r.outbox[1]);
    BodiesSend([], r.outbox[0]);
    assert [] + [r.outbox[0]] == [r.outbox[0]] && r.outbox == [r.outbox[0]] + [r.outbox[1]];
  }

  // ---- Saga steps -------------------------------------------------------------

  /** The evidence a move rests on: what must already be true for its target state. */
  predicate Justified(r: Row, m: Move) {
    && (m.next == AwaitingLedger ==> Heard(r, PolicyApproved))
    && (Funded(m.next) ==> ProcessingJournal in r.journals && Ordered(r, LedgerReserve))
    && (m.next == SagaCompleted ==> r.status == Succeeded)
    && (m.next == Returned ==> ReleasedJournal in r.journals)
  }

  lemma AdvanceKeeps(r: Row, m: Move, now: int, id: nat)
    requires RowInv(r) && r.saga.Some?
    requires Separated(r.saga.value.state, m) && Justified(r, m)
    ensures RowInv(Advance(r, m, now, id))
  {
    if m.command.Some? {
      BodiesSend(r.outbox, OutboxEvent(Generated(id), Order(m.command.value), m.failure));
    }
  }

  lemma StartKeeps(t: Timeouts, r: Row, now: int, id: nat)
    requires RowInv(r)
    ensures RowInv(Start(t, r, now, id))
  {
    BodiesSend(r.outbox, OutboxEvent(Generated(id), Order(PolicyEvaluate), ""));
  }

  lemma EventJustifies(t: Timeouts, r: Row, event: SagaEvent, reason: string)
    requires t.Valid() && RowInv(r) && Heard(r, event) && r.saga.Some?
    requires Transition(t, r.saga.value.state, event, reason).Some?
    ensures Justified(r, Transition(t, r.saga.value.state, event, reason).value)
  {}

  lemma DeliverKeeps(t: Timeouts, r: Row, i: nat, now: int, id: nat)
    requires t.Valid() && RowInv(r)
    ensures RowInv(Perform(t, r, Deliver(i, now, id)))
  {
    if i < |r.outbox| && r.outbox[i].body.Event? {
      var event, reason := r.outbox[i].body.event, r.outbox[i].reason;
      BodiesIn(r.outbox, i);
      if event == PayoutCreated {
        StartKeeps(t, r, now, id);
      } else if r.saga.Some? && Transition(t, r.saga.value.state, event, reason).Some? {
        EventJustifies(t, r, event, reason);
        EventMovesSeparate(t, r.saga.value.state, event, reason);
        AdvanceKeeps(r, Transition(t, r.saga.value.state, event, reason).value, now, id);
      }
    }
  }

  lemma ExpireKeeps(t: Timeouts, r: Row, now: int, id: nat)
    requires t.Valid() && RowInv(r)
    ensures RowInv(ExpireSaga(t, r, now, id))
  {
    if Overdue(r.saga, now) {
      OtherMovesSeparate(t, r.saga.value.state, RetryReview, "");
      AdvanceKeeps(r, TimeoutMove(t, r.saga.value.state), now, id);
    }
  }

  lemma ReviewKeeps(t: Timeouts, r: Row, action: ReviewAction, operator: string, note: string, now: int, id: nat)
    requires t.Valid() && RowInv(r)
    ensures RowInv(ResolveReview(t, r, action, operator, note, now, id))
  {
    if r.saga.Some? && r.saga.value.state == ManualReview {
      OtherMovesSeparate(t, ManualReview, action, note);
      AdvanceKeeps(r, ReviewMove(t, action, note), now, id);
    }
  }

  // ---- Messages ---------------------------------------------------------------

  /** What must be true before a message may be written. */
  predicate Truthful(m: Message, status: PaymentStatus, journals: seq<JournalKind>) {
    match m
    case Order(_) => false
    case Event(FundsReserved) | Public(NoticeProcessing) => ProcessingJournal in journals
    case Event(FundsReleased) => ReleasedJournal in journals
    case Event(PayoutCompleted) | Public(NoticeSucceeded) => status == Succeeded
    case Event(PayoutFailed) | Public(NoticeFailed) => status == Failed
    case Public(NoticeReturned) => ReturnJournal in journals
    case Event(LedgerFailed) => false
    case _ => true
  }

  lemma SendKeeps(r: Row, id: EventId, body: Message, reason: string)
    requires RowInv(r) && r.saga.Some? && Truthful(body, r.status, r.journals)
    ensures RowInv(Send(r, id, body, reason))
  {
    BodiesSend(r.outbox, OutboxEvent(id, body, reason));
  }

  lemma ReplyKeeps(r: Row, reply: SagaEvent, reason: string, id: nat)
    requires RowInv(r) && r.saga.Some? && Truthful(Event(reply), r.status, r.journals)
    ensures RowInv(Reply(r, reply, reason, id))
  {
    SendKeeps(r, Generated(id), Event(reply), reason);
    var notice := NoticeFor(reply);
    if notice.Some? {
      SendKeeps(Send(r, Generated(id), Event(reply), reason), Generated(id + 1), Public(notice.value), reason);
    }
  }

  // ---- Worker steps -----------------------------------------------------------

  lemma HistoryAppend(timeline: seq<PaymentStatus>, from: PaymentStatus, to: PaymentStatus)
    requires HistoryFits(timeline, from) && Follows(from, to)
    ensures HistoryFits(timeline + [to], to)
  {}

  lemma EntriesAppend(journals: seq<JournalKind>, kind: JournalKind, amount: int, currency: string)
    ensures AllLines(journals + [kind], amount, currency) == AllLines(journals, amount, currency) + Lines(kind, amount, currency)
  {
    assert (journals + [kind])[..|journals|] == journals;
  }

  lemma CommandsAfterPost(sent: set<Message>, saga: Option<Saga>, from: PaymentStatus, to: PaymentStatus, journals: seq<JournalKind>, kind: JournalKind)
    requires CommandsFit(sent, saga, from, journals) && (from == Succeeded ==> to == Succeeded)
    ensures CommandsFit(sent, saga, to, journals + [kind])
  {}

  /** Posting a journal keeps the invariant when status, journals and replies still agree. */
  lemma PostKeeps(r: Row, to: PaymentStatus, kind: JournalKind, returned: seq<Return>)
    requires RowInv(r) && Follows(r.status, to)
    requires LedgerFits(Bodies(r.outbox), to, r.journals + [kind])
    requires RepliesFit(Bodies(r.outbox), to, r.journals + [kind])
    requires ReturnFits(r.journals + [kind], r.payout, returned, r.amount, r.currency)
    ensures RowInv(r.(status := to, journals := r.journals + [kind], entries := r.entries + Lines(kind, r.amount, r.currency),
                      timeline := r.timeline + [to], returned := returned))
  {
    HistoryAppend(r.timeline, r.status, to);
    EntriesAppend(r.journals, kind, r.amount, r.currency);
    CommandsAfterPost(Bodies(r.outbox), r.saga, r.status, to, r.journals, kind);
  }

  lemma ReserveKeeps(r: Row)
    requires RowInv(r) && Ordered(r, LedgerReserve)
    ensures Reserve(r).Posted? ==> RowInv(Reserve(r).row) && ProcessingJournal in Reserve(r).row.journals
  {
    if r.status == Created {
      assert r.journals + [ProcessingJournal] == [ProcessingJournal];
      PostKeeps(r, Processing, ProcessingJournal, r.returned);
    }
  }

  lemma ReleaseKeeps(r: Row)
    requires RowInv(r) && Ordered(r, LedgerRelease)
    ensures Release(r).Posted? ==> RowInv(Release(r).row) && ReleasedJournal in Release(r).row.journals
  {
    if r.status == Processing && ReleasedJournal !in r.journals {
      assert r.journals + [ReleasedJournal] == [ProcessingJournal, ReleasedJournal];
      PostKeeps(r, Processing, ReleasedJournal, r.returned);
    }
  }

  lemma SettleKeeps(r: Row)
    requires RowInv(r) && Ordered(r, PaymentSettle)
    ensures Settle(r).Posted? && RowInv(Settle(r).row) && Settle(r).row.status == Succeeded
  {
    if r.status != Succeeded {
      assert r.status == Processing;
      assert r.journals + [SucceededJournal] == [ProcessingJournal, SucceededJournal];
      PostKeeps(r, Succeeded, SucceededJournal, r.returned);
    }
  }

  lemma FailKeeps(r: Row, reason: string, id: nat)
    requires RowInv(r) && (Ordered(r, PaymentFail) || Ordered(r, PaymentFailReserved))
    ensures RowInv(FailPayment(r, reason, id))
  {
    if r.status != Succeeded && r.status != Failed {
      var failed := r.(status := Failed, timeline := r.timeline + [Failed]);
      assert RowInv(failed);
      ReplyKeeps(failed, PayoutFailed, reason, id);
    }
  }

  lemma ReturnKeeps(r: Row, reason: string, id: nat)
    requires RowInv(r)
    ensures RowInv(ReturnPayment(r, reason, id))
  {
    if Returnable(r) {
      var noted := r.(timeline := r.timeline + [Failed]);
      assert RowInv(noted);
      ReplyKeeps(noted, FundsReturned, reason, id);
    }
  }

  /** Changing the attempt record or the worker's memory touches nothing else. */
  lemma AttemptKeeps(r: Row, payout: Option<Payout>, worker: Worker, calls: seq<ExecuteRequest>)
    requires RowInv(r)
    requires AttemptFits(Bodies(r.outbox), r.key, r.route, payout, worker, calls)
    requires ReturnFits(r.journals, payout, r.returned, r.amount, r.currency)
    ensures RowInv(r.(payout := payout, worker := worker, calls := calls))
  {}

  lemma PrepareKeeps(r: Row, command: EventId)
    requires RowInv(r) && Ordered(r, SettlementExecute)
    ensures RowInv(Prepare(r, command))
  {
    var prepared := Prepare(r, command);
    AttemptKeeps(r, prepared.payout, prepared.worker, r.calls);
  }

  lemma OrderedMeansStarted(r: Row, c: Command)
    requires RowInv(r) && Ordered(r, c)
    ensures r.saga.Some?
  {}

  lemma ReserveWorkKeeps(r: Row, reason: string, id: nat)
    requires RowInv(r) && r.saga.Some? && Ordered(r, LedgerReserve)
    ensures RowInv(PostAndReply(r, Reserve(r), FundsReserved, reason, id))
  {
    ReserveKeeps(r);
    if Reserve(r).Posted? { ReplyKeeps(Reserve(r).row, FundsReserved, reason, id); }
  }

  lemma ReleaseWorkKeeps(r: Row, reason: string, id: nat)
    requires RowInv(r) && r.saga.Some? && Ordered(r, LedgerRelease)
    ensures RowInv(PostAndReply(r, Release(r), FundsReleased, reason, id))
  {
    ReleaseKeeps(r);
    if Release(r).Posted? { ReplyKeeps(Release(r).row, FundsReleased, reason, id); }
  }

  lemma SettleWorkKeeps(r: Row, reason: string, id: nat)
    requires RowInv(r) && r.saga.Some? && Ordered(r, PaymentSettle)
    ensures RowInv(PostAndReply(r, Settle(r), PayoutCompleted, reason, id))
  {
    SettleKeeps(r);
    ReplyKeeps(Settle(r).row, PayoutCompleted, reason, id);
  }

  lemma WorkKeeps(t: Timeouts, r: Row, i: nat, decision: Decision, id: nat)
    requires RowInv(r)
    ensures RowInv(Perform(t, r, Work(i, decision, id)))
  {
    if i < |r.outbox| && r.outbox[i].body.Order? {
      var command, reason := r.outbox[i].body.command, r.outbox[i].reason;
      BodiesIn(r.outbox, i);
      OrderedMeansStarted(r, command);
      match command
      case PolicyEvaluate =>
        if decision.Approve? { ReplyKeeps(r, PolicyApproved, reason, id); }
        if decision.Reject? { ReplyKeeps(r, PolicyRejected, decision.reason, id); }
      case LedgerReserve => ReserveWorkKeeps(r, reason, id);
      case LedgerRelease => ReleaseWorkKeeps(r, reason, id);
      case PaymentSettle => SettleWorkKeeps(r, reason, id);
      case PaymentFail => FailKeeps(r, reason, id);
      case PaymentFailReserved => FailKeeps(r, reason, id);
      case PaymentReturn => ReturnKeeps(r, reason, id);
      case SettlementExecute => PrepareKeeps(r, r.outbox[i].id);
    }
  }

  // ---- Provider steps ---------------------------------------------------------

  lemma CallKeeps(r: Row, reply: ProviderReply)
    requires RowInv(r)
    ensures RowInv(CallProvider(r, reply))
  {
    var called := CallProvider(r, reply);
    AttemptKeeps(r, r.payout, called.worker, called.calls);
  }

  lemma RecordKeeps(r: Row)
    requires RowInv(r)
    ensures RowInv(RecordReply(r))
  {
    var recorded := RecordReply(r);
    if r.worker.Answered? {
      RecordTouchesAttempt(r);
      RecordFits(r, Bodies(r.outbox));
      AttemptKeeps(r, recorded.payout, recorded.worker, r.calls);
    }
  }

  lemma RecordTouchesAttempt(r: Row)
    ensures RecordReply(r) == r.(payout := RecordReply(r).payout, worker := RecordReply(r).worker, calls := r.calls)
  {}

  /** The worker only records into an unresolved row without a reference. */
  lemma RecordFits(r: Row, sent: set<Message>)
    requires r.worker.Answered? && AttemptFits(sent, r.key, r.route, r.payout, r.worker, r.calls)
    requires ReturnFits(r.journals, r.payout, r.returned, r.amount, r.currency)
    ensures var recorded := RecordReply(r);
      && AttemptFits(sent, r.key, r.route, recorded.payout, recorded.worker, r.calls)
      && ReturnFits(r.journals, recorded.payout, r.returned, r.amount, r.currency)
  {}

  lemma ApplyKeeps(r: Row, clash: bool)
    requires RowInv(r)
    ensures RowInv(ApplyResult(r, clash))
  {
    if r.worker.Finished? {
      var command, result := r.worker.command, r.worker.result;
      AttemptKeeps(r, r.payout, Idle, r.calls);
      var stored := r.(worker := Idle, submissions := Upsert(r.submissions, command, result));
      assert RowInv(stored);
      if ResultEvent(result).Some? {
        SendKeeps(stored, ResultOf(command), Event(ResultEvent(result).value), ResultReason(result));
      }
    }
  }

  lemma SagaResultKeeps(r: Row, svix: string, status: SettlementStatus, clash: bool)
    requires RowInv(r)
    ensures RowInv(SendSagaResult(r, svix, status, clash))
  {
    if r.saga.Some? {
      match status
      case SettlementCompleted => SendKeeps(r, FromDelivery(svix), Event(ProviderCompleted), "");
      case SettlementRefunded => SendKeeps(r, FromDelivery(svix), Event(ProviderReturned), "refunded");
      case SettlementOnHold => SendKeeps(r, FromDelivery(svix), Event(ProviderHeld), "settlement on hold");
      case _ => SendKeeps(r, FromDelivery(svix), Event(ProviderFailed), "failed");
    }
  }

  lemma ReturnJournalKeeps(r: Row, svix: string)
    requires RowInv(r) && r.payout.Some? && r.payout.value.reference != "" && r.payout.value.status == SettlementRefunded
    ensures RecordReturn(r, svix).Posted? ==>
              RowInv(RecordReturn(r, svix).row) && ReturnJournal in RecordReturn(r, svix).row.journals
  {
    if r.status == Succeeded && ReturnJournal !in r.journals {
      assert r.journals + [ReturnJournal] == [ProcessingJournal, SucceededJournal, ReturnJournal];
      PostKeeps(r, Succeeded, ReturnJournal, r.returned + [Return(svix, r.amount, r.currency)]);
    }
  }

  lemma RefundKeeps(r: Row, svix: string, clash: bool)
    requires RowInv(r) && r.payout.Some? && r.payout.value.reference != "" && r.payout.value.status == SettlementRefunded
    ensures RecordReturn(r, svix).Posted? ==>
              RowInv(SendOnce(RecordReturn(r, svix).row, FromDelivery(svix), clash, Public(NoticeReturned), "provider returned funds after completed payout"))
  {
    ReturnJournalKeeps(r, svix);
    if RecordReturn(r, svix).Posted? {
      SendKeeps(RecordReturn(r, svix).row, FromDelivery(svix), Public(NoticeReturned), "provider returned funds after completed payout");
    }
  }

  lemma StatusKeeps(r: Row, status: SettlementStatus)
    requires RowInv(r) && r.payout.Some? && r.payout.value.reference != "" && CanAdvance(r.payout.value.status, status)
    ensures RowInv(r.(payout := Some(r.payout.value.(status := status))))
  {
    var payout := Some(r.payout.value.(status := status));
    AttemptKeeps(r, payout, r.worker, r.calls);
    assert r.(payout := payout) == r.(payout := payout, worker := r.worker, calls := r.calls);
  }

  lemma WebhookKeeps(r: Row, svix: string, status: SettlementStatus, clash: bool)
    requires RowInv(r)
    ensures RowInv(Webhook(r, svix, status, clash))
  {
    if r.payout.Some? && r.payout.value.reference != "" {
      if CanAdvance(r.payout.value.status, status) {
        StatusKeeps(r, status);
        var updated := r.(payout := Some(r.payout.value.(status := status)));
        if r.payout.value.status == SettlementCompleted {
          RefundKeeps(updated, svix, clash);
        } else {
          SagaResultKeeps(updated, svix, status, clash);
        }
      } else {
        SagaResultKeeps(r, svix, status, clash);
      }
    }
  }

  // ---- Runs -------------------------------------------------------------------

  lemma PerformKeeps(t: Timeouts, r: Row, s: Step)
    requires t.Valid() && RowInv(r)
    ensures RowInv(Perform(t, r, s))
  {
    match s
    case Deliver(i, now, id) => DeliverKeeps(t, r, i, now, id);
    case Expire(now, id) => ExpireKeeps(t, r, now, id);
    case Review(action, operator, note, now, id) => ReviewKeeps(t, r, action, operator, note, now, id);
    case Work(i, decision, id) => WorkKeeps(t, r, i, decision, id);
    case Call(reply) => CallKeeps(r, reply);
    case Record => RecordKeeps(r);
    case Apply(clash) => ApplyKeeps(r, clash);
    case Crash =>
    case Notify(svix, status, clash) => WebhookKeeps(r, svix, status, clash);
  }

  lemma {:induction false} RunKeeps(t: Timeouts, r: Row, steps: seq<Step>)
    requires t.Valid() && RowInv(r)
    ensures RowInv(Run(t, r, steps))
    decreases |steps|
  {
    if steps != [] {
      PerformKeeps(t, r, steps[0]);
      RunKeeps(t, Perform(t, r, steps[0]), steps[1..]);
    }
  }
}
