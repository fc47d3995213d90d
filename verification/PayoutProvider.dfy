/** The provider side of a payout: which calls are made, what a recorded answer is worth,
    and what a stream of webhooks can do to the payout row. */
module PayoutProvider {
  import opened PaymentCore
  import opened Ledger
  import opened PayoutSaga
  import opened Provider
  import opened PayoutProtocol
  import opened PayoutInvariant
  import opened PayoutTheorems
  import opened PayoutOrder

  // ---- Which steps touch the attempt record -----------------------------------

  predicate SameAttempt(r: Row, r': Row) {
    r'.payout == r.payout && r'.worker == r.worker && r'.calls == r.calls
  }

  lemma SagaStepsLeaveAttempt(t: Timeouts, r: Row, s: Step)
    requires s.Deliver? || s.Expire? || s.Review?
    ensures SameAttempt(r, Perform(t, r, s))
  {}

  lemma ReplyLeavesAttempt(r: Row, posted: Row, reply: SagaEvent, reason: string, id: nat)
    requires SameAttempt(r, posted)
    ensures SameAttempt(r, Reply(posted, reply, reason, id))
  {}

  lemma WorkLeavesAttempt(t: Timeouts, r: Row, i: nat, decision: Decision, id: nat)
    requires r.payout.Some?
    ensures var r' := Perform(t, r, Work(i, decision, id));
      r'.payout == r.payout && r'.calls == r.calls && (r'.worker == r.worker || r'.worker == Prepare(r, r.outbox[i].id).worker)
  {
    if i < |r.outbox| && r.outbox[i].body.Order? {
      var reason := r.outbox[i].reason;
      match r.outbox[i].body.command
      case LedgerReserve => if Reserve(r).Posted? { ReplyLeavesAttempt(r, Reserve(r).row, FundsReserved, reason, id); }
      case LedgerRelease => if Release(r).Posted? { ReplyLeavesAttempt(r, Release(r).row, FundsReleased, reason, id); }
      case PaymentSettle => if Settle(r).Posted? { ReplyLeavesAttempt(r, Settle(r).row, PayoutCompleted, reason, id); }
      case SettlementExecute =>
      case _ =>
    }
  }

  lemma WebhookAdvances(r: Row, svix: string, status: SettlementStatus, clash: bool)
    ensures var r' := Webhook(r, svix, status, clash);
      && r'.worker == r.worker && r'.calls == r.calls
      && (r'.payout != r.payout ==>
            && r.payout.Some? && r.payout.value.reference != "" && CanAdvance(r.payout.value.status, status)
            && r'.payout == Some(r.payout.value.(status := status)))
  {}

  // ---- Provider calls ---------------------------------------------------------

  /** All calls for a payment carry the same key and quote, and the next one is a repeat
      only if an unknown outcome is on record and no reference is. */
  lemma CallsAreRepeatable(t: Timeouts, r0: Row, steps: seq<Step>)
    requires t.Valid() && Fresh(r0)
    ensures var r := Run(t, r0, steps);
      && (forall c | c in r.calls :: r.route.Some? && c == ExecuteRequest(r.key, r.route.value.providerQuote))
      && (r.worker.Calling? && r.calls != [] ==>
            r.payout.Some? && r.payout.value.status == SubmissionUnknown && r.payout.value.reference == "")
  {
    Reached(t, r0, steps);
  }

  /** settlement.execute leads to a provider call exactly when there is no attempt yet or
      the recorded attempt has no reference and an unknown outcome. */
  lemma ExecuteCallsIff(r: Row, command: EventId)
    requires RowInv(r) && r.worker == Idle && r.key != "" && r.route.Some?
    ensures Prepare(r, command).worker.Calling? <==>
              r.payout.None? || (r.payout.value.reference == "" && r.payout.value.status == SubmissionUnknown)
  {}

  /** Nothing can reach a payout row that has no reference and is not being worked on,
      unless its outcome is recorded as unknown. */
  predicate Stranded(r: Row) {
    r.payout.Some? && r.payout.value.reference == "" && r.payout.value.status != SubmissionUnknown && r.worker == Idle
  }

  lemma StrandedStep(t: Timeouts, r: Row, s: Step)
    requires RowInv(r) && Stranded(r)
    ensures var r' := Perform(t, r, s); Stranded(r') && r'.calls == r.calls && r'.payout == r.payout
  {
    match s
    case Work(i, decision, id) => WorkLeavesAttempt(t, r, i, decision, id);
    case Notify(svix, status, clash) => WebhookAdvances(r, svix, status, clash);
    case Call(_) | Record | Apply(_) | Crash =>
    case _ => SagaStepsLeaveAttempt(t, r, s);
  }

  /** A response lost to a crash is never asked for again: the row stays in
      submission_pending and every later settlement.execute returns without a call. */
  lemma {:induction false} LostResponseIsNeverResubmitted(t: Timeouts, r: Row, steps: seq<Step>)
    requires t.Valid() && RowInv(r) && Stranded(r)
    ensures Run(t, r, steps).calls == r.calls && Run(t, r, steps).payout == r.payout
    decreases |steps|
  {
    if steps != [] {
      StrandedStep(t, r, steps[0]);
      PerformKeeps(t, r, steps[0]);
      LostResponseIsNeverResubmitted(t, Perform(t, r, steps[0]), steps[1..]);
    }
  }

  /** A first call whose answer is never recorded: the worker crashes right after it. */
  function CalledAndLost(t: Timeouts, r: Row, i: nat, decision: Decision, id: nat, reply: ProviderReply): Row {
    Perform(t, Perform(t, Perform(t, r, Work(i, decision, id)), Call(reply)), Crash)
  }

  lemma LostAttempt(t: Timeouts, r: Row, i: nat, decision: Decision, id: nat, reply: ProviderReply)
    requires r.worker == Idle && r.payout.None? && r.calls == [] && r.key != "" && r.route.Some?
    requires i < |r.outbox| && r.outbox[i].body == Order(SettlementExecute)
    ensures CalledAndLost(t, r, i, decision, id, reply)
         == r.(payout := Some(Payout("", SubmissionPending, r.key)), calls := [ExecuteRequest(r.key, r.route.value.providerQuote)])
  {}

  lemma LostAttemptKeeps(t: Timeouts, r: Row, i: nat, decision: Decision, id: nat, reply: ProviderReply)
    requires t.Valid() && RowInv(r)
    ensures RowInv(CalledAndLost(t, r, i, decision, id, reply))
  {
    var working := Perform(t, r, Work(i, decision, id));
    PerformKeeps(t, r, Work(i, decision, id));
    PerformKeeps(t, working, Call(reply));
    PerformKeeps(t, Perform(t, working, Call(reply)), Crash);
  }

  /** The crash that strands a payout: after the call, before the answer is recorded. From
      then on the payout row and the one call never change. */
  lemma CrashStrands(t: Timeouts, r: Row, i: nat, decision: Decision, id: nat, reply: ProviderReply, later: seq<Step>)
    requires t.Valid() && RowInv(r) && r.payout.None? && r.key != "" && r.route.Some?
    requires i < |r.outbox| && r.outbox[i].body == Order(SettlementExecute)
    ensures var lost := CalledAndLost(t, r, i, decision, id, reply);
      && RowInv(lost) && Stranded(lost) && |lost.calls| == 1
      && Run(t, lost, later).calls == lost.calls && Run(t, lost, later).payout == lost.payout
  {
    LostAttempt(t, r, i, decision, id, reply);
    LostAttemptKeeps(t, r, i, decision, id, reply);
    LostResponseIsNeverResubmitted(t, CalledAndLost(t, r, i, decision, id, reply), later);
  }

  predicate Referenced(r: Row) {
    r.payout.Some? && r.payout.value.reference != ""
  }

  lemma ReferencedStep(t: Timeouts, r: Row, s: Step)
    requires RowInv(r) && Referenced(r)
    ensures var r' := Perform(t, r, s);
      && r'.calls == r.calls && r'.payout.Some?
      && r'.payout.value == r.payout.value.(status := r'.payout.value.status)
      && (r'.payout.value.status != r.payout.value.status ==> CanAdvance(r.payout.value.status, r'.payout.value.status))
  {
    match s
    case Work(i, decision, id) => WorkLeavesAttempt(t, r, i, decision, id);
    case Notify(svix, status, clash) => WebhookAdvances(r, svix, status, clash);
    case Call(_) | Record | Apply(_) | Crash => assert !r.worker.Calling? && !r.worker.Answered?;
    case _ => SagaStepsLeaveAttempt(t, r, s);
  }

  /** Once a reference is stored it never changes and no further call is made. */
  lemma {:induction false} ReferenceEndsCalls(t: Timeouts, r: Row, steps: seq<Step>)
    requires t.Valid() && RowInv(r) && Referenced(r)
    ensures var r' := Run(t, r, steps);
      r'.calls == r.calls && r'.payout.Some? && r'.payout.value.reference == r.payout.value.reference
    decreases |steps|
  {
    if steps != [] {
      ReferencedStep(t, r, steps[0]);
      PerformKeeps(t, r, steps[0]);
      ReferenceEndsCalls(t, Perform(t, r, steps[0]), steps[1..]);
    }
  }

  // ---- Recorded answers -------------------------------------------------------

  predicate Untrimmed(result: ExecutionResult) {
    result.status == ExecutionFailed && TrimSpace(result.code) in {"refunded", "submission_failed"} && TrimSpace(result.code) != result.code
  }

  lemma StatusNamesAreTrimmed(s: string)
    requires ParseStatus(s).Some?
    ensures TrimSpace(s) == s
  {
    LettersAreNotSpaces(s[0]);
    LettersAreNotSpaces(s[|s| - 1]);
  }

  lemma LettersAreNotSpaces(c: char)
    requires 'a' <= c <= 'z'
    ensures !IsSpace(c)
  {}

  /** A stored answer replays as the saga event of the original one. The only answers that
      cannot be stored are the untrimmed ones, which the table's CHECK refuses. */
  lemma ReplayYieldsSameEvent(result: ExecutionResult)
    requires result.Valid()
    ensures Untrimmed(result) <==> ParseStatus(PersistedStatus(result)).None?
    ensures !Untrimmed(result) ==>
              var replayed := MapPersisted(result.reference, ParseStatus(PersistedStatus(result)).value);
              replayed.Valid() && ResultEvent(replayed) == ResultEvent(result)
  {
    if result.status == ExecutionFailed && TrimSpace(result.code) in {"refunded", "submission_failed"} {
      StoredCode(result.code);
    }
  }

  /** Of the two codes that are stored as they came, the table admits the trimmed forms. */
  lemma StoredCode(code: string)
    requires TrimSpace(code) in {"refunded", "submission_failed"}
    ensures ParseStatus(code).Some? <==> TrimSpace(code) == code
    ensures TrimSpace(code) == code ==> ParseStatus(code).value == if code == "refunded" then SettlementRefunded else SubmissionFailed
  {
    if ParseStatus(code).Some? { StatusNamesAreTrimmed(code); }
  }

  /** An answer to the first call that cannot be stored strands the payout like a crash. */
  lemma UntrimmedAnswerStrands(t: Timeouts, r: Row, later: seq<Step>)
    requires t.Valid() && RowInv(r) && r.worker.Answered? && r.worker.reply.Answer? && r.payout.value.status == SubmissionPending
    requires r.worker.reply.result.Valid() && Untrimmed(r.worker.reply.result)
    ensures Stranded(Perform(t, r, Record))
    ensures Run(t, Perform(t, r, Record), later).calls == r.calls && Run(t, Perform(t, r, Record), later).payout == r.payout
  {
    ReplayYieldsSameEvent(r.worker.reply.result);
    PerformKeeps(t, r, Record);
    LostResponseIsNeverResubmitted(t, Perform(t, r, Record), later);
  }

  // ---- Webhook streams --------------------------------------------------------

  /** Strictly increases with every webhook-driven status change. */
  function Progress(status: SettlementStatus): nat {
    if status == SettlementFailed || status == SettlementRefunded then 5 else Rank(status)
  }

  function StatusChanges(t: Timeouts, r: Row, steps: seq<Step>): nat
    decreases |steps|
  {
    if steps == [] then 0
    else
      var r' := Perform(t, r, steps[0]);
      StatusChanges(t, r', steps[1..])
      + if r.payout.Some? && r'.payout.Some? && r'.payout.value.status != r.payout.value.status then 1 else 0
  }

  /** However many webhooks arrive, in whatever order, a submitted payout changes status
      at most five times. */
  lemma {:induction false} StatusChangesAreBounded(t: Timeouts, r: Row, steps: seq<Step>)
    requires t.Valid() && RowInv(r) && Referenced(r)
    ensures Run(t, r, steps).payout.Some?
    ensures Progress(r.payout.value.status) + StatusChanges(t, r, steps) <= Progress(Run(t, r, steps).payout.value.status) <= 5
    decreases |steps|
  {
    if steps != [] {
      ReferencedStep(t, r, steps[0]);
      PerformKeeps(t, r, steps[0]);
      StatusChangesAreBounded(t, Perform(t, r, steps[0]), steps[1..]);
    }
  }

  /** failed and refunded are final, and completed can only become refunded. */
  lemma {:induction false} TerminalStatusesHold(t: Timeouts, r: Row, steps: seq<Step>)
    requires t.Valid() && RowInv(r) && Referenced(r) && Terminal(r.payout.value.status)
    ensures Run(t, r, steps).payout.Some?
    ensures var before, after := r.payout.value.status, Run(t, r, steps).payout.value.status;
      after == before || (before == SettlementCompleted && after == SettlementRefunded)
    decreases |steps|
  {
    if steps != [] {
      ReferencedStep(t, r, steps[0]);
      PerformKeeps(t, r, steps[0]);
      TerminalStatusesHold(t, Perform(t, r, steps[0]), steps[1..]);
    }
  }

  lemma RefundWebhook(r: Row, svix: string, status: SettlementStatus, clash: bool)
    requires r.payout.Some? && r.payout.value.status == SettlementCompleted
    requires Webhook(r, svix, status, clash).payout != r.payout
    ensures var updated := r.(payout := Some(r.payout.value.(status := SettlementRefunded)));
      && status == SettlementRefunded && RecordReturn(updated, svix).Posted?
      && Webhook(r, svix, status, clash).(outbox := r.outbox) == RecordReturn(updated, svix).row
  {}

  /** A completed payout becomes refunded only together with its one return journal and
      its one payment_returns row, and the payment stays succeeded. */
  lemma RefundPostsReturn(t: Timeouts, r: Row, s: Step)
    requires t.Valid() && RowInv(r) && Referenced(r) && r.payout.value.status == SettlementCompleted
    requires Perform(t, r, s).payout != r.payout
    ensures var r' := Perform(t, r, s);
      && r'.payout == Some(r.payout.value.(status := SettlementRefunded))
      && r'.journals == r.journals + [ReturnJournal] && ReturnJournal !in r.journals
      && |r'.returned| == 1 && r'.returned[0].amount == r.amount && r'.returned[0].currency == r.currency
      && r.status == Succeeded && r'.status == Succeeded
  {
    match s
    case Work(i, decision, id) => WorkLeavesAttempt(t, r, i, decision, id);
    case Notify(svix, status, clash) => RefundWebhook(r, svix, status, clash);
    case Call(_) | Record | Apply(_) | Crash =>
    case _ => SagaStepsLeaveAttempt(t, r, s);
  }

  // ---- Replayed deliveries ----------------------------------------------------

  /** The delivery has left its message and the payout has moved at least that far. */
  ghost predicate Processed(r: Row, svix: string, status: SettlementStatus) {
    && RowInv(r) && Referenced(r)
    && HasId(r.outbox, FromDelivery(svix))
    && !CanAdvance(r.payout.value.status, status)
  }

  lemma ProcessedStep(t: Timeouts, r: Row, svix: string, status: SettlementStatus, s: Step)
    requires t.Valid() && Processed(r, svix, status)
    ensures Processed(Perform(t, r, s), svix, status)
  {
    var r' := Perform(t, r, s);
    PerformKeeps(t, r, s);
    StepExtends(t, r, s);
    ReferencedStep(t, r, s);
    IdsStay(r.outbox, r'.outbox, FromDelivery(svix));
    NoWayBack(r.payout.value.status, r'.payout.value.status, status);
  }

  lemma IdsStay(outbox: seq<OutboxEvent>, longer: seq<OutboxEvent>, id: EventId)
    requires outbox <= longer && HasId(outbox, id)
    ensures HasId(longer, id)
  {
    var e :| e in outbox && e.id == id;
    assert e in longer;
  }

  /** What a payout cannot advance to now, it cannot advance to later. */
  lemma NoWayBack(before: SettlementStatus, after: SettlementStatus, status: SettlementStatus)
    requires !CanAdvance(before, status) && (after != before ==> CanAdvance(before, after))
    ensures !CanAdvance(after, status)
  {}

  lemma {:induction false} ProcessedForever(t: Timeouts, r: Row, svix: string, status: SettlementStatus, steps: seq<Step>)
    requires t.Valid() && Processed(r, svix, status)
    ensures Processed(Run(t, r, steps), svix, status)
    decreases |steps|
  {
    if steps != [] {
      ProcessedStep(t, r, svix, status, steps[0]);
      ProcessedForever(t, Perform(t, r, steps[0]), svix, status, steps[1..]);
    }
  }

  /** Without a status change a delivery only writes when it repeats the current status. */
  lemma SameStatusMessage(r: Row, svix: string, status: SettlementStatus, clash: bool)
    requires Webhook(r, svix, status, clash).payout == r.payout && Webhook(r, svix, status, clash).outbox != r.outbox
    ensures Referenced(r) && r.payout.value.status == status
  {}

  lemma MessageMeansProcessed(r: Row, svix: string, status: SettlementStatus, clash: bool)
    requires RowInv(r) && !HasId(r.outbox, FromDelivery(svix)) && HasId(Webhook(r, svix, status, clash).outbox, FromDelivery(svix))
    ensures Processed(Webhook(r, svix, status, clash), svix, status)
  {
    WebhookKeeps(r, svix, status, clash);
    WebhookAdvances(r, svix, status, clash);
    if r.payout.None? || Webhook(r, svix, status, clash).payout == r.payout {
      SameStatusMessage(r, svix, status, clash);
    }
  }

  /** Replaying a delivery that has left its message changes nothing, at any later point
      of the run. */
  lemma ReplayedDeliveryIsANoOp(t: Timeouts, r: Row, svix: string, status: SettlementStatus, clash: bool, steps: seq<Step>, again: bool)
    requires t.Valid() && RowInv(r)
    requires !HasId(r.outbox, FromDelivery(svix)) && HasId(Webhook(r, svix, status, clash).outbox, FromDelivery(svix))
    ensures var later := Run(t, Webhook(r, svix, status, clash), steps); Webhook(later, svix, status, again) == later
  {
    MessageMeansProcessed(r, svix, status, clash);
    ProcessedForever(t, Webhook(r, svix, status, clash), svix, status, steps);
  }
}
