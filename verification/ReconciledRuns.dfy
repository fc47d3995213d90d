/** What reconciliation findings mean for a payment: when along a run they appear, and what
    makes them go away. */
module ReconciledRuns {
  import opened PaymentCore
  import opened Ledger
  import opened PayoutSaga
  import opened Provider
  import opened PayoutProtocol
  import opened PayoutInvariant
  import opened PayoutTheorems
  import opened PayoutOrder
  import opened PayoutProvider
  import opened PayoutSubmissions
  import opened PayoutCauses
  import opened PayoutOutcomes
  import opened PayoutReports
  import opened Reconciler

  // ---- Findings about one payment ---------------------------------------------

  predicate PayoutFlagged(r: Row) {
    r.payout.Some? && PayoutBroken(r.status, r.payout.value.status, r.returned != [])
  }

  predicate SubmissionFlagged(r: Row) {
    r.submissions != [] && SettlementBroken(r.status, r.submissions[|r.submissions| - 1].status)
  }

  /** A run detects exactly the flagged payments. */
  lemma DetectedIffFlagged(reconciliation: Reconciliation, p: Id)
    requires reconciliation.db.Valid()
    ensures reconciliation.Detects(PayoutMismatch(p)) <==> p in reconciliation.db.rows && PayoutFlagged(reconciliation.db.rows[p])
    ensures reconciliation.Detects(SettlementMismatch(p)) <==>
              reconciliation.provider != "blindpay" && p in reconciliation.db.rows && SubmissionFlagged(reconciliation.db.rows[p])
  {
    var db := reconciliation.db;
    assert db.Fits(p);
    if p in db.payments { ReturnedRows(db.returned, p); }
  }

  lemma ReturnedRows(table: seq<(Id, Return)>, p: Id)
    ensures RowsOf(table, p) != [] <==> exists row :: row in table && row.0 == p
  {
    if row :| row in table && row.0 == p {
      RowsOfIn(table, p, row.1);
    }
    if RowsOf(table, p) != [] {
      RowsOfIn(table, p, RowsOf(table, p)[0]);
      assert (p, RowsOf(table, p)[0]) in table;
    }
  }

  // ---- Steps that leave the provider's side alone -----------------------------

  predicate SameRecords(r: Row, r': Row) {
    r'.payout == r.payout && r'.submissions == r.submissions && r'.returned == r.returned
  }

  lemma SagaStepsKeepRecords(t: Timeouts, r: Row, s: Step)
    requires s.Deliver? || s.Expire? || s.Review?
    ensures SameRecords(r, Perform(t, r, s)) && Perform(t, r, s).status == r.status
  {}

  lemma ReplyKeepsRecords(r: Row, posted: Row, reply: SagaEvent, reason: string, id: nat)
    requires SameRecords(r, posted)
    ensures SameRecords(r, Reply(posted, reply, reason, id))
  {}

  lemma WorkKeepsRecords(r: Row, message: EventId, command: Command, reason: string, decision: Decision, id: nat)
    requires r.payout.Some?
    ensures SameRecords(r, HandleCommand(r, message, command, reason, decision, id))
  {
    match command
    case LedgerReserve => if Reserve(r).Posted? { ReplyKeepsRecords(r, Reserve(r).row, FundsReserved, reason, id); }
    case LedgerRelease => if Release(r).Posted? { ReplyKeepsRecords(r, Release(r).row, FundsReleased, reason, id); }
    case PaymentSettle => if Settle(r).Posted? { ReplyKeepsRecords(r, Settle(r).row, PayoutCompleted, reason, id); }
    case PolicyEvaluate =>
    case SettlementExecute =>
    case _ =>
  }

  lemma WorkLastKeepsRecords(t: Timeouts, r: Row, id: nat)
    requires r.payout.Some?
    ensures SameRecords(r, WorkLast(t, r, id))
  {
    if |r.outbox| > 0 && r.outbox[|r.outbox| - 1].body.Order? {
      var m := r.outbox[|r.outbox| - 1];
      WorkKeepsRecords(r, m.id, m.body.command, m.reason, PolicyError, id);
    }
  }

  // ---- Provider reports -------------------------------------------------------

  /** A report of completion or failure that has arrived for a waiting payout, or one on hold,
      is flagged until its event has been delivered and the command worked, and not after. */
  lemma ReportsAreFlaggedUntilSettled(t: Timeouts, r0: Row, steps: seq<Step>, svix: string, status: SettlementStatus, now: int, id: nat, id': nat)
    requires t.Valid() && Fresh(r0) && (status == SettlementCompleted || status == SettlementFailed)
    requires var r := Run(t, r0, steps);
      && Referenced(r) && r.saga.Some? && svix != "" && !HasId(r.outbox, FromDelivery(svix)) && Later(r.payout.value.status, status)
      && (r.saga.value.state == AwaitingSettlement || r.saga.value.state == OnHold)
    ensures var reported := Perform(t, Run(t, r0, steps), Notify(svix, status, false));
      && |reported.outbox| > 0
      && var moved := Perform(t, reported, Deliver(|reported.outbox| - 1, now, id));
         PayoutFlagged(reported) && PayoutFlagged(moved) && !PayoutFlagged(WorkLast(t, moved, id'))
  {
    Reached(t, r0, steps);
    var r := Run(t, r0, steps);
    ReportsDecide(t, r0, steps, svix, status, now, id, id');
    ReportWrites(t, r, svix, status);
    FundedIsProcessing(r);
    var reported := Perform(t, r, Notify(svix, status, false));
    var moved := Perform(t, reported, Deliver(|r.outbox|, now, id));
    SagaStepsKeepRecords(t, reported, Deliver(|r.outbox|, now, id));
    WorkLastKeepsRecords(t, moved, id');
  }

  predicate RefundedEarly(r: Row) { Referenced(r) && r.payout.value.status == SettlementRefunded && ReturnJournal !in r.journals }

  lemma NoLateReturn(t: Timeouts, r: Row, s: Step)
    requires RowInv(r) && RefundedEarly(r)
    ensures RefundedEarly(Perform(t, r, s))
  {
    ReturnJournalStays(t, r, s);
    match s
    case Work(i, decision, id) =>
      if i < |r.outbox| && r.outbox[i].body.Order? { WorkReturnsNothing(r, r.outbox[i].id, r.outbox[i].body.command, r.outbox[i].reason, decision, id); }
    case Notify(svix, status, clash) => RefundedReturnsNothing(r, svix, status, clash);
    case _ =>
  }

  lemma WorkReturnsNothing(r: Row, message: EventId, command: Command, reason: string, decision: Decision, id: nat)
    requires ReturnJournal !in r.journals
    ensures ReturnJournal !in HandleCommand(r, message, command, reason, decision, id).journals
  {}

  lemma RefundedReturnsNothing(r: Row, svix: string, status: SettlementStatus, clash: bool)
    requires Referenced(r) && r.payout.value.status == SettlementRefunded
    ensures Webhook(r, svix, status, clash).journals == r.journals
  {}

  lemma {:induction false} RefundedEarlyForever(t: Timeouts, r: Row, steps: seq<Step>)
    requires t.Valid() && RowInv(r) && RefundedEarly(r)
    ensures RefundedEarly(Run(t, r, steps)) && PayoutFlagged(Run(t, r, steps))
    decreases |steps|
  {
    if steps != [] {
      NoLateReturn(t, r, steps[0]);
      PerformKeeps(t, r, steps[0]);
      RefundedEarlyForever(t, Perform(t, r, steps[0]), steps[1..]);
    }
  }

  /** A payout that is refunded before it was ever reported as completed is flagged from then
      on, whatever happens next: no return row is ever written for it. */
  lemma EarlyRefundsStayFlagged(t: Timeouts, r0: Row, steps: seq<Step>, svix: string, later: seq<Step>)
    requires t.Valid() && Fresh(r0)
    requires var r := Run(t, r0, steps); Referenced(r) && svix != "" && Later(r.payout.value.status, SettlementRefunded)
    ensures PayoutFlagged(Run(t, Perform(t, Run(t, r0, steps), Notify(svix, SettlementRefunded, false)), later))
  {
    Reached(t, r0, steps);
    var r := Run(t, r0, steps);
    PerformKeeps(t, r, Notify(svix, SettlementRefunded, false));
    EarlyRefund(r, svix);
    RefundedEarlyForever(t, Perform(t, r, Notify(svix, SettlementRefunded, false)), later);
  }

  lemma EarlyRefund(r: Row, svix: string)
    requires RowInv(r) && Referenced(r) && svix != "" && Later(r.payout.value.status, SettlementRefunded)
    ensures RefundedEarly(Webhook(r, svix, SettlementRefunded, false))
  {}

  /** A refund after completion is accounted for in the same step, and not flagged. */
  lemma LateRefundsAreAccounted(t: Timeouts, r: Row, s: Step)
    requires t.Valid() && RowInv(r) && Referenced(r) && r.payout.value.status == SettlementCompleted
    requires Perform(t, r, s).payout != r.payout
    ensures !PayoutFlagged(Perform(t, r, s)) && Perform(t, r, s).payout == Some(r.payout.value.(status := SettlementRefunded))
  {
    RefundPostsReturn(t, r, s);
  }

  // ---- Submissions ------------------------------------------------------------

  /** An answer that has been applied to a waiting payout is flagged iff it reports success, and
      then until its event has been delivered and the payment settled. */
  lemma AnswersAreFlaggedUntilSettled(t: Timeouts, r0: Row, steps: seq<Step>, result: ExecutionResult, now: int, id: nat, id': nat)
    requires t.Valid() && Fresh(r0)
    requires var r := Run(t, r0, steps);
      && r.worker.Answered? && r.worker.reply == Answer(result) && result.Valid() && !Untrimmed(result)
      && InState(r, AwaitingSettlement) && !HasSubmission(r.submissions, r.worker.command) && !HasId(r.outbox, ResultOf(r.worker.command))
    ensures var r := Run(t, r0, steps);
      var applied := Perform(t, Perform(t, r, Record), Apply(false));
      var moved := Perform(t, applied, Deliver(|r.outbox|, now, id));
      && (SubmissionFlagged(applied) <==> result.status == ExecutionSucceeded)
      && (result.status == ExecutionSucceeded ==> SubmissionFlagged(moved) && !SubmissionFlagged(WorkLast(t, moved, id')))
  {
    Reached(t, r0, steps);
    var r := Run(t, r0, steps);
    AnswersDecide(t, r0, steps, result, now, id, id');
    FundedIsProcessing(r);
    var applied := Perform(t, Perform(t, r, Record), Apply(false));
    ProviderStepsKeepStatus(t, r);
    var moved := Perform(t, applied, Deliver(|r.outbox|, now, id));
    SagaStepsKeepRecords(t, applied, Deliver(|r.outbox|, now, id));
    WorkLastKeepsRecords(t, moved, id');
  }

  lemma ProviderStepsKeepStatus(t: Timeouts, r: Row)
    ensures Perform(t, Perform(t, r, Record), Apply(false)).status == r.status
  {
    assert Perform(t, r, Record).status == r.status;
  }

  /** A payment that an operator completes although its last submission was not a success is
      flagged once it is settled. */
  lemma OperatorCompletionsAreFlagged(t: Timeouts, r0: Row, steps: seq<Step>, operator: string, note: string, now: int, id: nat, id': nat)
    requires t.Valid() && Fresh(r0) && InState(Run(t, r0, steps), ManualReview) && operator != "" && note != ""
    requires Run(t, r0, steps).payout.Some? && Run(t, r0, steps).submissions != []
    ensures var r := Run(t, r0, steps);
      var settled := WorkLast(t, Perform(t, r, Review(CompleteReview, operator, note, now, id)), id');
      SubmissionFlagged(settled) <==> r.submissions[|r.submissions| - 1].status != ExecutionSucceeded
  {
    ReviewsDecide(t, r0, steps, CompleteReview, operator, note, now, id, id');
    var r := Run(t, r0, steps);
    var r' := Perform(t, r, Review(CompleteReview, operator, note, now, id));
    SagaStepsKeepRecords(t, r, Review(CompleteReview, operator, note, now, id));
    WorkLastKeepsRecords(t, r', id');
  }
}
