/** What a stream of provider reports adds up to, and what the merchant is told. */
module PayoutReports {
  import opened PaymentCore
  import opened Ledger
  import opened PayoutSaga
  import opened Provider
  import opened PayoutProtocol
  import opened PayoutInvariant
  import opened PayoutTheorems
  import opened PayoutOrder
  import opened PayoutProvider
  import opened PayoutStages

  // ---- The first final report -------------------------------------------------

  predicate ReportsStatus(s: Step, status: SettlementStatus) { s.Notify? && s.svix != "" && s.status == status }

  predicate ReportsFinal(s: Step) { ReportsStatus(s, SettlementCompleted) || ReportsStatus(s, SettlementFailed) || ReportsStatus(s, SettlementRefunded) }

  /** The first final status that the run reports. */
  function FirstFinal(steps: seq<Step>): Option<SettlementStatus> {
    if steps == [] then None else if ReportsFinal(steps[0]) then Some(steps[0].status) else FirstFinal(steps[1..])
  }

  predicate Reported(steps: seq<Step>, status: SettlementStatus) {
    steps != [] && (ReportsStatus(steps[0], status) || Reported(steps[1..], status))
  }

  lemma QuietStep(t: Timeouts, r: Row, s: Step)
    requires RowInv(r) && Referenced(r) && (s.Notify? ==> s.svix == "")
    ensures Perform(t, r, s).payout == r.payout
  {
    match s
    case Work(i, decision, id) => WorkLeavesAttempt(t, r, i, decision, id);
    case Call(_) | Record | Apply(_) | Crash =>
    case Notify(_, _, _) =>
    case _ => SagaStepsLeaveAttempt(t, r, s);
  }

  /** Before anything final was reported, a hold sticks and a final status takes over. */
  lemma OpenReport(t: Timeouts, r: Row, s: Step)
    requires Referenced(r) && r.payout.value.status in {SettlementProcessing, SettlementOnHold} && s.Notify? && s.svix != ""
    ensures Perform(t, r, s).payout == Some(r.payout.value.(status :=
      if ReportsFinal(s) || s.status == SettlementOnHold then s.status else r.payout.value.status))
  {}

  /** Completion stands until a refund is reported, which then comes with its return journal. */
  lemma CompletedReport(t: Timeouts, r: Row, s: Step)
    requires RowInv(r) && Referenced(r) && r.payout.value.status == SettlementCompleted
    ensures var r' := Perform(t, r, s); r'.payout != r.payout ==>
      ReportsStatus(s, SettlementRefunded) && r'.payout == Some(r.payout.value.(status := SettlementRefunded)) && ReturnJournal in r'.journals
  {
    if s.Notify? && s.svix != "" {
      if Perform(t, r, s).payout != r.payout { RefundWebhook(r, s.svix, s.status, s.clash); }
    } else {
      QuietStep(t, r, s);
    }
  }

  lemma ReturnJournalStays(t: Timeouts, r: Row, s: Step)
    requires RowInv(r) && Referenced(r) && r.payout.value.status == SettlementRefunded
    ensures Perform(t, r, s).payout == r.payout && (ReturnJournal in r.journals ==> ReturnJournal in Perform(t, r, s).journals)
  {
    if s.Notify? && s.svix != "" { RefundedIsDeaf(r, s.svix, s.status, s.clash); } else { QuietStep(t, r, s); }
    JournalsStay(t, r, s, ReturnJournal);
  }

  lemma RefundedIsDeaf(r: Row, svix: string, status: SettlementStatus, clash: bool)
    requires Referenced(r) && r.payout.value.status == SettlementRefunded
    ensures Webhook(r, svix, status, clash).payout == r.payout
  {}

  lemma WebhookPosts(r: Row, svix: string, status: SettlementStatus, clash: bool)
    ensures var r' := Webhook(r, svix, status, clash); r.journals <= r'.journals && r'.status == r.status
  {}

  lemma WorkPosts(r: Row, message: EventId, command: Command, reason: string, decision: Decision, id: nat)
    ensures r.journals <= HandleCommand(r, message, command, reason, decision, id).journals
  {}

  lemma JournalsStay(t: Timeouts, r: Row, s: Step, kind: JournalKind)
    ensures r.journals <= Perform(t, r, s).journals && (kind in r.journals ==> kind in Perform(t, r, s).journals)
  {
    match s
    case Work(i, decision, id) =>
      if i < |r.outbox| && r.outbox[i].body.Order? { WorkPosts(r, r.outbox[i].id, r.outbox[i].body.command, r.outbox[i].reason, decision, id); }
    case Notify(svix, status, clash) => WebhookPosts(r, svix, status, clash);
    case _ =>
  }

  lemma {:induction false} AfterRefund(t: Timeouts, r: Row, steps: seq<Step>)
    requires t.Valid() && RowInv(r) && Referenced(r) && r.payout.value.status == SettlementRefunded
    ensures Run(t, r, steps).payout == r.payout && (ReturnJournal in r.journals ==> ReturnJournal in Run(t, r, steps).journals)
    decreases |steps|
  {
    if steps != [] {
      ReturnJournalStays(t, r, steps[0]);
      PerformKeeps(t, r, steps[0]);
      AfterRefund(t, Perform(t, r, steps[0]), steps[1..]);
    }
  }

  lemma {:induction false} AfterCompletion(t: Timeouts, r: Row, steps: seq<Step>)
    requires t.Valid() && RowInv(r) && Referenced(r) && r.payout.value.status == SettlementCompleted
    ensures var r' := Run(t, r, steps);
      r'.payout == r.payout
      || (Reported(steps, SettlementRefunded) && r'.payout == Some(r.payout.value.(status := SettlementRefunded)) && ReturnJournal in r'.journals)
    decreases |steps|
  {
    if steps != [] {
      var r1 := Perform(t, r, steps[0]);
      CompletedReport(t, r, steps[0]);
      PerformKeeps(t, r, steps[0]);
      if r1.payout == r.payout { AfterCompletion(t, r1, steps[1..]); } else { AfterRefund(t, r1, steps[1..]); }
    }
  }

  lemma FailedIsDeaf(t: Timeouts, r: Row, s: Step)
    requires RowInv(r) && Referenced(r) && r.payout.value.status == SettlementFailed
    ensures Perform(t, r, s).payout == r.payout
  {
    if !s.Notify? || s.svix == "" { QuietStep(t, r, s); }
  }

  lemma {:induction false} AfterFailure(t: Timeouts, r: Row, steps: seq<Step>)
    requires t.Valid() && RowInv(r) && Referenced(r) && r.payout.value.status == SettlementFailed
    ensures Run(t, r, steps).payout == r.payout
    decreases |steps|
  {
    if steps != [] {
      FailedIsDeaf(t, r, steps[0]);
      PerformKeeps(t, r, steps[0]);
      AfterFailure(t, Perform(t, r, steps[0]), steps[1..]);
    }
  }

  /** Whatever the order, number and age of the deliveries of a run: the first final report
      decides, except that a completed payout can still be refunded, with its return journal;
      without a final report the payout is on hold iff it was or a hold was reported. */
  lemma {:induction false} FirstFinalReportWins(t: Timeouts, r: Row, steps: seq<Step>)
    requires t.Valid() && RowInv(r) && Referenced(r) && r.payout.value.status in {SettlementProcessing, SettlementOnHold}
    ensures Run(t, r, steps).payout.Some?
    ensures var before, after := r.payout.value.status, Run(t, r, steps).payout.value.status;
      match FirstFinal(steps)
      case None => after == if Reported(steps, SettlementOnHold) then SettlementOnHold else before
      case Some(first) =>
        after == first
        || (first == SettlementCompleted && after == SettlementRefunded && Reported(steps, SettlementRefunded) && ReturnJournal in Run(t, r, steps).journals)
    decreases |steps|
  {
    if steps != [] {
      var s, r1 := steps[0], Perform(t, r, steps[0]);
      if s.Notify? && s.svix != "" { OpenReport(t, r, s); } else { QuietStep(t, r, s); }
      PerformKeeps(t, r, s);
      if ReportsFinal(s) {
        match s.status
        case SettlementCompleted => AfterCompletion(t, r1, steps[1..]);
        case SettlementFailed => AfterFailure(t, r1, steps[1..]);
        case SettlementRefunded => AfterRefund(t, r1, steps[1..]);
      } else {
        FirstFinalReportWins(t, r1, steps[1..]);
      }
    }
  }

  // ---- What the merchant is told ----------------------------------------------

  /** Every outcome is announced by the transaction that reaches it. */
  ghost predicate Announced(r: Row) {
    && (r.status == Succeeded ==> Public(NoticeSucceeded) in Bodies(r.outbox))
    && (r.status == Failed ==> Public(NoticeFailed) in Bodies(r.outbox))
    && (ProcessingJournal in r.journals ==> Public(NoticeProcessing) in Bodies(r.outbox))
  }

  lemma {:induction false} BodiesGrow(outbox: seq<OutboxEvent>, longer: seq<OutboxEvent>)
    requires outbox <= longer
    ensures Bodies(outbox) <= Bodies(longer)
    decreases |longer|
  {
    if |outbox| < |longer| {
      BodiesGrow(outbox, longer[..|longer| - 1]);
    } else {
      assert outbox == longer;
    }
  }

  lemma ReplyAnnounces(r: Row, reply: SagaEvent, reason: string, id: nat)
    ensures Event(reply) in Bodies(Reply(r, reply, reason, id).outbox)
    ensures reply == PayoutCompleted ==> Public(NoticeSucceeded) in Bodies(Reply(r, reply, reason, id).outbox)
    ensures reply == PayoutFailed ==> Public(NoticeFailed) in Bodies(Reply(r, reply, reason, id).outbox)
    ensures reply == FundsReserved ==> Public(NoticeProcessing) in Bodies(Reply(r, reply, reason, id).outbox)
  {
    var sent := Send(r, Generated(id), Event(reply), reason);
    BodiesSend(r.outbox, OutboxEvent(Generated(id), Event(reply), reason));
    if NoticeFor(reply).Some? { BodiesSend(sent.outbox, OutboxEvent(Generated(id + 1), Public(NoticeFor(reply).value), reason)); }
  }

  /** A reply announces whatever its posting has decided. */
  lemma ReplyAnnounced(r: Row, posted: Row, reply: SagaEvent, reason: string, id: nat)
    requires Announced(r) && posted.outbox == r.outbox
    requires posted.status == r.status || (posted.status == Processing && reply == FundsReserved) || (posted.status == Succeeded && reply == PayoutCompleted)
          || (posted.status == Failed && reply == PayoutFailed)
    requires ProcessingJournal in posted.journals ==> ProcessingJournal in r.journals || reply == FundsReserved
    ensures Announced(Reply(posted, reply, reason, id))
  {
    ReplyAnnounces(posted, reply, reason, id);
    BodiesGrow(r.outbox, Reply(posted, reply, reason, id).outbox);
  }

  lemma PostingDecides(r: Row)
    ensures Reserve(r).Posted? ==> Reserve(r).row.outbox == r.outbox && Reserve(r).row.status == Processing
    ensures Settle(r).Posted? ==> Settle(r).row.outbox == r.outbox && Settle(r).row.status == Succeeded
    ensures Settle(r).Posted? && ProcessingJournal in Settle(r).row.journals ==> ProcessingJournal in r.journals
  {}

  lemma WorkAnnounces(r: Row, message: EventId, command: Command, reason: string, decision: Decision, id: nat)
    requires Announced(r)
    ensures var r' := HandleCommand(r, message, command, reason, decision, id); r.outbox <= r'.outbox ==> Announced(r')
  {
    var r' := HandleCommand(r, message, command, reason, decision, id);
    PostingDecides(r);
    if r.outbox <= r'.outbox {
      match command
      case LedgerReserve => if Reserve(r).Posted? { ReplyAnnounced(r, Reserve(r).row, FundsReserved, reason, id); }
      case PaymentSettle => if Settle(r).Posted? { ReplyAnnounced(r, Settle(r).row, PayoutCompleted, reason, id); }
      case PaymentFail | PaymentFailReserved => ReplyAnnounced(r, r.(status := Failed, timeline := r.timeline + [Failed]), PayoutFailed, reason, id);
      case _ =>
        OtherCommandsDecideNothing(r, message, command, reason, decision, id);
        StillAnnounced(r, r');
    }
  }

  lemma OtherCommandsDecideNothing(r: Row, message: EventId, command: Command, reason: string, decision: Decision, id: nat)
    requires command != LedgerReserve && command != PaymentSettle && command != PaymentFail && command != PaymentFailReserved
    ensures var r' := HandleCommand(r, message, command, reason, decision, id);
      r'.status == r.status && (ProcessingJournal in r'.journals ==> ProcessingJournal in r.journals)
  {}

  lemma WebhookAnnounces(r: Row, svix: string, status: SettlementStatus, clash: bool)
    ensures var r' := Webhook(r, svix, status, clash); r'.status == r.status && (ProcessingJournal in r'.journals ==> ProcessingJournal in r.journals)
  {}

  lemma StepAnnounces(t: Timeouts, r: Row, s: Step)
    requires t.Valid() && RowInv(r) && Announced(r)
    ensures Announced(Perform(t, r, s))
  {
    StepExtends(t, r, s);
    if s.Work? && s.i < |r.outbox| && r.outbox[s.i].body.Order? {
      WorkAnnounces(r, r.outbox[s.i].id, r.outbox[s.i].body.command, r.outbox[s.i].reason, s.decision, s.id);
    } else {
      OtherStepsDecideNothing(t, r, s);
      StillAnnounced(r, Perform(t, r, s));
    }
  }

  lemma OtherStepsDecideNothing(t: Timeouts, r: Row, s: Step)
    requires s.Work? ==> s.i >= |r.outbox| || !r.outbox[s.i].body.Order?
    ensures var r' := Perform(t, r, s); r'.status == r.status && (ProcessingJournal in r'.journals ==> ProcessingJournal in r.journals)
  {
    if s.Notify? { WebhookAnnounces(r, s.svix, s.status, s.clash); }
  }

  lemma StillAnnounced(r: Row, r': Row)
    requires Announced(r) && r.outbox <= r'.outbox && r'.status == r.status && (ProcessingJournal in r'.journals ==> ProcessingJournal in r.journals)
    ensures Announced(r')
  {
    BodiesGrow(r.outbox, r'.outbox);
  }

  lemma {:induction false} RunAnnounces(t: Timeouts, r: Row, steps: seq<Step>)
    requires t.Valid() && RowInv(r) && Announced(r)
    ensures Announced(Run(t, r, steps))
    decreases |steps|
  {
    if steps != [] {
      StepAnnounces(t, r, steps[0]);
      PerformKeeps(t, r, steps[0]);
      RunAnnounces(t, Perform(t, r, steps[0]), steps[1..]);
    }
  }

  /** In every reachable state the merchant has been told of success iff the payment has
      succeeded, of failure iff it has failed, and of processing iff its funds were reserved;
      a return is only announced once it is posted. */
  lemma NoticesTellTheOutcome(t: Timeouts, r0: Row, steps: seq<Step>)
    requires t.Valid() && Fresh(r0)
    ensures var r := Run(t, r0, steps); var told := Bodies(r.outbox);
      && (Public(NoticeSucceeded) in told <==> r.status == Succeeded)
      && (Public(NoticeFailed) in told <==> r.status == Failed)
      && (Public(NoticeProcessing) in told <==> ProcessingJournal in r.journals)
      && (Public(NoticeReturned) in told ==> ReturnJournal in r.journals)
  {
    Reached(t, r0, []);
    Reached(t, r0, steps);
    RunAnnounces(t, r0, steps);
  }
}
