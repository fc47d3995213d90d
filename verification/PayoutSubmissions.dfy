/** What settlement_submissions can hold, and what becomes of a settlement.execute that is
    issued again. */
module PayoutSubmissions {
  import opened PaymentCore
  import opened Ledger
  import opened PayoutSaga
  import opened Provider
  import opened PayoutProtocol
  import opened PayoutInvariant
  import opened PayoutTheorems
  import opened PayoutOrder
  import opened PayoutProvider

  // ---- One reference per payment ----------------------------------------------

  /** The worker's result carries the stored reference, and at most one submission holds it. */
  predicate AnswersFit(r: Row) {
    && (r.worker.Finished? ==> r.payout.Some? && r.worker.result.reference == r.payout.value.reference)
    && (forall s | s in r.submissions && s.reference != "" :: r.payout.Some? && s.reference == r.payout.value.reference)
    && (forall i, j | 0 <= i < j < |r.submissions| :: r.submissions[i].reference == "" || r.submissions[j].reference == "")
  }

  lemma WorkKeepsAnswers(t: Timeouts, r: Row, i: nat, decision: Decision, id: nat)
    requires AnswersFit(r)
    ensures AnswersFit(Perform(t, r, Work(i, decision, id)))
    ensures Perform(t, r, Work(i, decision, id)).submissions == r.submissions
  {
    if r.payout.Some? {
      WorkLeavesAttempt(t, r, i, decision, id);
    }
    if i < |r.outbox| && r.outbox[i].body.Order? {
      WorkLeavesSubmissions(r, r.outbox[i].id, r.outbox[i].body.command, r.outbox[i].reason, decision, id);
    }
  }

  lemma ReplyLeavesSubmissions(r: Row, reply: SagaEvent, reason: string, id: nat)
    ensures var r' := Reply(r, reply, reason, id); r'.submissions == r.submissions && r'.worker == r.worker && r'.payout == r.payout
  {}

  lemma WorkLeavesSubmissions(r: Row, message: EventId, command: Command, reason: string, decision: Decision, id: nat)
    ensures var r' := HandleCommand(r, message, command, reason, decision, id);
      && r'.submissions == r.submissions
      && (r'.worker.Finished? ==> r'.worker == r.worker || r.payout.Some?)
      && (r.payout.None? && r'.payout.Some? ==> r'.worker.Calling?)
  {
    match command
    case LedgerReserve => if Reserve(r).Posted? { ReplyLeavesSubmissions(Reserve(r).row, FundsReserved, reason, id); }
    case LedgerRelease => if Release(r).Posted? { ReplyLeavesSubmissions(Release(r).row, FundsReleased, reason, id); }
    case PaymentSettle => if Settle(r).Posted? { ReplyLeavesSubmissions(Settle(r).row, PayoutCompleted, reason, id); }
    case PolicyEvaluate =>
    case SettlementExecute =>
    case _ =>
  }

  lemma WebhookKeepsAnswers(r: Row, svix: string, status: SettlementStatus, clash: bool)
    requires AnswersFit(r)
    ensures AnswersFit(Webhook(r, svix, status, clash)) && Webhook(r, svix, status, clash).submissions == r.submissions
  {
    WebhookAdvances(r, svix, status, clash);
    WebhookLeavesSubmissions(r, svix, status, clash);
  }

  lemma WebhookLeavesSubmissions(r: Row, svix: string, status: SettlementStatus, clash: bool)
    ensures Webhook(r, svix, status, clash).submissions == r.submissions
  {}

  /** Updating a submission changes no command and no reference. */
  lemma UpsertKeeps(submissions: seq<Submission>, command: EventId, result: ExecutionResult)
    ensures var after := Upsert(submissions, command, result);
      && |submissions| <= |after|
      && (HasSubmission(submissions, command) ==> |after| == |submissions|)
      && (!HasSubmission(submissions, command) ==> after == submissions + [Submission(command, result.reference, result.status)])
      && forall i | 0 <= i < |submissions| :: after[i].command == submissions[i].command && after[i].reference == submissions[i].reference
  {}

  /** A result that comes again for a command on record updates that submission's status, and
      nothing else on record. */
  lemma RepeatedResultsUpdate(r: Row, clash: bool, i: nat)
    requires r.worker.Finished? && HasSubmission(r.submissions, r.worker.command) && i < |r.submissions|
    ensures var after := ApplyResult(r, clash).submissions;
      && |after| == |r.submissions| && after[i].command == r.submissions[i].command && after[i].reference == r.submissions[i].reference
      && after[i].status == if r.submissions[i].command == r.worker.command then r.worker.result.status else r.submissions[i].status
  {}

  lemma ApplyKeepsAnswers(r: Row, clash: bool)
    requires AnswersFit(r)
    ensures AnswersFit(ApplyResult(r, clash))
  {
    if r.worker.Finished? {
      var command, result, after := r.worker.command, r.worker.result, ApplyResult(r, clash).submissions;
      UpsertKeeps(r.submissions, command, result);
      if after != r.submissions {
        forall s | s in after && s.reference != "" ensures s.reference == r.payout.value.reference {
          var i :| 0 <= i < |after| && after[i] == s;
          if i < |r.submissions| { assert r.submissions[i] in r.submissions; }
        }
        forall i, j | 0 <= i < j < |after| ensures after[i].reference == "" || after[j].reference == "" {
          if j == |r.submissions| { assert r.submissions[i] in r.submissions; }
        }
      }
    }
  }

  lemma AnswersStep(t: Timeouts, r: Row, s: Step)
    requires RowInv(r) && AnswersFit(r)
    ensures AnswersFit(Perform(t, r, s))
    ensures !s.Apply? ==> Perform(t, r, s).submissions == r.submissions
  {
    match s
    case Work(i, decision, id) => WorkKeepsAnswers(t, r, i, decision, id);
    case Notify(svix, status, clash) => WebhookKeepsAnswers(r, svix, status, clash);
    case Apply(clash) => ApplyKeepsAnswers(r, clash);
    case Record => RecordKeepsAnswers(r);
    case Call(_) | Crash =>
    case _ => SagaStepsKeepAnswers(t, r, s);
  }

  lemma RecordKeepsAnswers(r: Row)
    requires RowInv(r) && AnswersFit(r)
    ensures AnswersFit(RecordReply(r)) && RecordReply(r).submissions == r.submissions
  {
    assert r.worker.Answered? ==> r.payout.value.reference == "";
  }

  lemma SagaStepsKeepAnswers(t: Timeouts, r: Row, s: Step)
    requires AnswersFit(r) && (s.Deliver? || s.Expire? || s.Review?)
    ensures AnswersFit(Perform(t, r, s)) && Perform(t, r, s).submissions == r.submissions
  {
    SagaStepsLeaveAttempt(t, r, s);
  }

  lemma {:induction false} AnswersRun(t: Timeouts, r: Row, steps: seq<Step>)
    requires t.Valid() && RowInv(r) && AnswersFit(r)
    ensures AnswersFit(Run(t, r, steps))
    decreases |steps|
  {
    if steps != [] {
      AnswersStep(t, r, steps[0]);
      PerformKeeps(t, r, steps[0]);
      AnswersRun(t, Perform(t, r, steps[0]), steps[1..]);
    }
  }

  lemma ReachedAnswers(t: Timeouts, r0: Row, steps: seq<Step>)
    requires t.Valid() && Fresh(r0)
    ensures RowInv(Run(t, r0, steps)) && AnswersFit(Run(t, r0, steps))
  {
    Reached(t, r0, []);
    Reached(t, r0, steps);
    AnswersRun(t, r0, steps);
  }

  // ---- Retried commands -------------------------------------------------------

  /** Some command's submission has a reference on record. */
  predicate ReferenceRecorded(r: Row) { exists s :: s in r.submissions && s.reference != "" }

  /** In every reachable state, a result of a further settlement.execute commits iff no
      earlier command has recorded a reference; otherwise nothing is written. */
  lemma RetriedExecuteCommitsIff(t: Timeouts, r0: Row, steps: seq<Step>, clash: bool)
    requires t.Valid() && Fresh(r0)
    requires var r := Run(t, r0, steps); r.worker.Finished? && !HasSubmission(r.submissions, r.worker.command)
    ensures var r := Run(t, r0, steps);
      && (HasSubmission(ApplyResult(r, clash).submissions, r.worker.command) <==> !ReferenceRecorded(r))
      && (ReferenceRecorded(r) ==> ApplyResult(r, clash) == r.(worker := Idle))
  {
    ReachedAnswers(t, r0, steps);
  }

  /** The commands and references on record; statuses may still be updated. */
  predicate SameSubmissions(before: seq<Submission>, after: seq<Submission>) {
    && |after| == |before|
    && forall i | 0 <= i < |before| :: after[i].command == before[i].command && after[i].reference == before[i].reference
  }

  /** No command outside those recorded before has published an outcome since. */
  ghost predicate NoNewOutcome(before: seq<Submission>, outbox: seq<OutboxEvent>, after: seq<OutboxEvent>) {
    && |outbox| <= |after|
    && forall j | |outbox| <= j < |after| && after[j].id.ResultOf? :: HasSubmission(before, after[j].id.command)
  }

  lemma OnlyApplyPublishes(t: Timeouts, r: Row, s: Step)
    requires t.Valid() && RowInv(r) && !s.Apply?
    ensures var r' := Perform(t, r, s); |r.outbox| <= |r'.outbox| && forall j | |r.outbox| <= j < |r'.outbox| :: !r'.outbox[j].id.ResultOf?
  {
    match s
    case Work(i, decision, id) =>
      if i < |r.outbox| && r.outbox[i].body.Order? {
        WorkPublishesNothing(r, r.outbox[i].id, r.outbox[i].body.command, r.outbox[i].reason, decision, id);
      }
    case Notify(svix, status, clash) => WebhookPublishesNothing(r, svix, status, clash);
    case Call(_) | Record | Crash =>
    case _ =>
  }

  lemma ReplyPublishesNothing(r: Row, reply: SagaEvent, reason: string, id: nat)
    ensures var r' := Reply(r, reply, reason, id); |r.outbox| <= |r'.outbox| && forall j | |r.outbox| <= j < |r'.outbox| :: !r'.outbox[j].id.ResultOf?
  {}

  lemma WorkPublishesNothing(r: Row, message: EventId, command: Command, reason: string, decision: Decision, id: nat)
    ensures var r' := HandleCommand(r, message, command, reason, decision, id);
      |r.outbox| <= |r'.outbox| && forall j | |r.outbox| <= j < |r'.outbox| :: !r'.outbox[j].id.ResultOf?
  {
    match command
    case LedgerReserve => if Reserve(r).Posted? { ReplyPublishesNothing(Reserve(r).row, FundsReserved, reason, id); }
    case LedgerRelease => if Release(r).Posted? { ReplyPublishesNothing(Release(r).row, FundsReleased, reason, id); }
    case PaymentSettle => if Settle(r).Posted? { ReplyPublishesNothing(Settle(r).row, PayoutCompleted, reason, id); }
    case PolicyEvaluate =>
    case SettlementExecute =>
    case _ =>
  }

  lemma WebhookPublishesNothing(r: Row, svix: string, status: SettlementStatus, clash: bool)
    ensures var r' := Webhook(r, svix, status, clash);
      |r.outbox| <= |r'.outbox| && forall j | |r.outbox| <= j < |r'.outbox| :: !r'.outbox[j].id.ResultOf?
  {}

  lemma RecordedApply(r: Row, clash: bool)
    requires AnswersFit(r) && ReferenceRecorded(r)
    ensures var r' := ApplyResult(r, clash);
      SameSubmissions(r.submissions, r'.submissions) && NoNewOutcome(r.submissions, r.outbox, r'.outbox)
  {
    if r.worker.Finished? {
      UpsertKeeps(r.submissions, r.worker.command, r.worker.result);
    }
  }

  lemma RecordedStep(t: Timeouts, r: Row, s: Step)
    requires t.Valid() && RowInv(r) && AnswersFit(r) && ReferenceRecorded(r)
    ensures var r' := Perform(t, r, s);
      SameSubmissions(r.submissions, r'.submissions) && ReferenceRecorded(r') && NoNewOutcome(r.submissions, r.outbox, r'.outbox)
  {
    AnswersStep(t, r, s);
    if s.Apply? {
      RecordedApply(r, s.clash);
    } else {
      OnlyApplyPublishes(t, r, s);
    }
    var x :| x in r.submissions && x.reference != "";
    var i :| 0 <= i < |r.submissions| && r.submissions[i] == x;
    assert Perform(t, r, s).submissions[i] in Perform(t, r, s).submissions;
  }

  lemma SubmissionsChain(a: seq<Submission>, b: seq<Submission>, command: EventId)
    requires SameSubmissions(a, b)
    ensures HasSubmission(a, command) <==> HasSubmission(b, command)
  {
    if HasSubmission(a, command) {
      var i :| 0 <= i < |a| && a[i].command == command;
      assert b[i] in b && b[i].command == command;
    }
    if HasSubmission(b, command) {
      var i :| 0 <= i < |b| && b[i].command == command;
      assert a[i] in a && a[i].command == command;
    }
  }

  /** Once a reference is recorded, no later step of any run adds a submission, and no
      settlement.execute but those already recorded ever publishes an outcome: a settlement
      timeout that issues the command again waits for nothing. */
  lemma {:induction false} RecordedForever(t: Timeouts, r: Row, steps: seq<Step>)
    requires t.Valid() && RowInv(r) && AnswersFit(r) && ReferenceRecorded(r)
    ensures var r' := Run(t, r, steps);
      SameSubmissions(r.submissions, r'.submissions) && r.outbox <= r'.outbox && NoNewOutcome(r.submissions, r.outbox, r'.outbox)
    decreases |steps|
  {
    if steps != [] {
      var r1, r' := Perform(t, r, steps[0]), Run(t, r, steps);
      RecordedStep(t, r, steps[0]);
      AnswersStep(t, r, steps[0]);
      PerformKeeps(t, r, steps[0]);
      StepExtends(t, r, steps[0]);
      RecordedForever(t, r1, steps[1..]);
      forall j | |r.outbox| <= j < |r'.outbox| && r'.outbox[j].id.ResultOf?
        ensures HasSubmission(r.submissions, r'.outbox[j].id.command)
      {
        SubmissionsChain(r.submissions, r1.submissions, r'.outbox[j].id.command);
        if j < |r1.outbox| { assert r1.outbox[j] == r'.outbox[j]; }
      }
    }
  }

  lemma SubmissionsAreFinal(t: Timeouts, r0: Row, before: seq<Step>, after: seq<Step>)
    requires t.Valid() && Fresh(r0) && ReferenceRecorded(Run(t, r0, before))
    ensures var r, r' := Run(t, r0, before), Run(t, Run(t, r0, before), after);
      SameSubmissions(r.submissions, r'.submissions) && NoNewOutcome(r.submissions, r.outbox, r'.outbox)
  {
    ReachedAnswers(t, r0, before);
    RecordedForever(t, Run(t, r0, before), after);
  }
}
