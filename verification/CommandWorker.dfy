/** The command worker and the payout submission it drives, as transactions on the database. */
module CommandWorker {
  import opened PaymentCore
  import opened Ledger
  import opened PayoutSaga
  import opened Provider
  import opened PayoutProtocol
  import opened Store
  import opened LedgerService

  method EnqueueReply(db: Database, p: Id, reply: SagaEvent, reason: string, id: nat)
    requires db.Valid() && p in db.rows
    modifies db`rows, db`outbox
    ensures db.Valid() && db.rows == old(db.rows)[p := Reply(old(db.rows[p]), reply, reason, id)]
  {
    db.InsertOutbox(p, OutboxEvent(Generated(id), Event(reply), reason));
    var notice := NoticeFor(reply);
    if notice.Some? {
      db.InsertOutbox(p, OutboxEvent(Generated(id + 1), Public(notice.value), reason));
    }
  }

  /** payment.fail, payment.fail_reserved and payment.return share one guarded update; false
      is the permanent rejection of an ineligible payment. */
  method RecordOutcome(db: Database, p: Id, command: Command, reason: string, id: nat) returns (ok: bool)
    requires db.Valid() && p in db.rows
    requires command == PaymentFail || command == PaymentFailReserved || command == PaymentReturn
    modifies db`rows, db`payments, db`timeline, db`outbox
    ensures db.Valid()
    ensures db.rows == old(db.rows)[p := if command == PaymentReturn then ReturnPayment(old(db.rows[p]), reason, id) else FailPayment(old(db.rows[p]), reason, id)]
    ensures ok <==> if command == PaymentReturn then Returnable(old(db.rows[p])) else old(db.rows[p]).status == Created || old(db.rows[p]).status == Processing
  {
    assert db.Fits(p);
    var status := db.payments[p].status;
    if command == PaymentReturn {
      RowsOfIn(db.journals, p, ReleasedJournal);
      ok := status == Failed && (p, ReleasedJournal) in db.journals;
    } else {
      ok := status != Succeeded && status != Failed;
    }
    if !ok {
      return;
    }
    db.UpdateStatus(p, Failed);
    db.InsertTimeline(p, Failed);
    EnqueueReply(db, p, if command == PaymentReturn then FundsReturned else PayoutFailed, reason, id);
  }

  /** The ledger commands: post, and reply only if the posting was accepted. */
  method PostCommand(db: Database, p: Id, command: Command, reason: string, id: nat) returns (ok: bool)
    requires db.Valid() && p in db.rows
    requires command == LedgerReserve || command == LedgerRelease || command == PaymentSettle
    modifies db`rows, db`payments, db`journals, db`entries, db`timeline, db`outbox
    ensures db.Valid()
    ensures db.rows == old(db.rows)[p := HandleCommand(old(db.rows[p]), Generated(0), command, reason, Approve, id)]
    ensures ok <==> OutcomeOf(old(db.rows[p]), command, Approve) == Committed
    ensures !ok ==> db.rows == old(db.rows)
  {
    var reply := FundsReserved;
    if command == LedgerReserve {
      ok := ReserveFunds(db, p);
    } else if command == LedgerRelease {
      ok := ReleaseFunds(db, p);
      reply := FundsReleased;
    } else {
      ok := SettlePayment(db, p);
      reply := PayoutCompleted;
    }
    if ok {
      EnqueueReply(db, p, reply, reason, id);
    }
  }

  /** CommandHandler.Handle. For settlement.execute this is the part up to the provider call. */
  method Handle(db: Database, p: Id, message: EventId, command: Command, reason: string, decision: Decision, id: nat)
    returns (outcome: Outcome)
    requires db.Valid() && p in db.rows
    modifies db`rows, db`payments, db`journals, db`entries, db`timeline, db`outbox, db`payouts, db`workers
    ensures db.Valid()
    ensures outcome == OutcomeOf(old(db.rows[p]), command, decision)
    ensures outcome == Rejected || outcome == Retried ==> db.rows == old(db.rows)
    ensures db.rows == old(db.rows)[p := HandleCommand(old(db.rows[p]), message, command, reason, decision, id)]
  {
    outcome := Committed;
    match command {
      case PolicyEvaluate =>
        match decision {
          case Approve => EnqueueReply(db, p, PolicyApproved, reason, id);
          case Reject(why) => EnqueueReply(db, p, PolicyRejected, why, id);
          case PolicyError => outcome := Retried;
        }
      case LedgerReserve | LedgerRelease | PaymentSettle =>
        var ok := PostCommand(db, p, command, reason, id);
        outcome := if ok then Committed else Rejected;
      case PaymentFail | PaymentFailReserved | PaymentReturn =>
        var ok := RecordOutcome(db, p, command, reason, id);
        outcome := if ok then Committed else Rejected;
      case SettlementExecute =>
        PreparePayout(db, p, message);
        outcome := Submitting;
    }
  }

  // ---- Provider submission ----------------------------------------------------

  /** prepare: the attempt row is written before the provider is called. */
  method PreparePayout(db: Database, p: Id, command: EventId)
    requires db.Valid() && p in db.rows
    modifies db`rows, db`payouts, db`workers
    ensures db.Valid() && db.rows == old(db.rows)[p := Prepare(old(db.rows[p]), command)]
  {
    assert db.Fits(p);
    var record := db.payments[p];
    if (p in db.workers && db.workers[p] != Idle) || record.key == "" || record.route.None? {
      return;
    }
    if p !in db.payouts {
      db.PutPayout(p, Payout("", SubmissionPending, record.key));
      db.SetWorker(p, Calling(command));
      return;
    }
    var attempt := db.payouts[p];
    if attempt.key != record.key {
      return;
    }
    if attempt.reference != "" {
      db.SetWorker(p, Finished(command, MapPersisted(attempt.reference, attempt.status)));
    } else if attempt.status == SubmissionUnknown {
      db.SetWorker(p, Calling(command));
    }
  }

  method Submit(db: Database, p: Id, reply: ProviderReply)
    requires db.Valid() && p in db.rows
    modifies db`rows, db`workers, db`calls
    ensures db.Valid() && db.rows == old(db.rows)[p := CallProvider(old(db.rows[p]), reply)]
  {
    assert db.Fits(p);
    var record := db.payments[p];
    if p in db.workers && db.workers[p].Calling? && record.route.Some? {
      db.InsertCall(p, ExecuteRequest(record.key, record.route.value.providerQuote));
      db.SetWorker(p, Answered(db.workers[p].command, reply));
    }
  }

  /** Every write of an outcome is guarded by the row still being unresolved. */
  method WriteOutcome(db: Database, p: Id, payout: Payout)
    requires db.Valid() && p in db.rows && db.rows[p].payout.Some?
    modifies db`rows, db`payouts
    ensures db.Valid()
    ensures db.rows == old(db.rows)[p := if Unresolved(old(db.rows[p]).payout.value.status) then old(db.rows[p]).(payout := Some(payout)) else old(db.rows[p])]
  {
    assert db.Fits(p);
    if Unresolved(db.payouts[p].status) {
      db.PutPayout(p, payout);
    }
  }

  method RecordResponse(db: Database, p: Id)
    requires db.Valid() && p in db.rows
    modifies db`rows, db`workers, db`payouts
    ensures db.Valid() && db.rows == old(db.rows)[p := RecordReply(old(db.rows[p]))]
  {
    assert db.Fits(p);
    if p !in db.workers || !db.workers[p].Answered? || p !in db.payouts {
      return;
    }
    var worker, row := db.workers[p], db.payouts[p];
    db.SetWorker(p, Idle);
    match worker.reply {
      case Fault => WriteOutcome(db, p, row.(status := SubmissionUnknown));
      case Refusal(message, code, retryable) =>
        WriteOutcome(db, p, row.(status := if retryable then SubmissionUnknown else SubmissionFailed));
        if !retryable && code == "submission_failed" {
          db.SetWorker(p, Finished(worker.command, ExecutionResult("", ExecutionFailed, code, message)));
        }
      case Answer(result) =>
        var status := ParseStatus(PersistedStatus(result));
        if result.Valid() && status.Some? {
          WriteOutcome(db, p, Payout(result.reference, status.value, row.key));
          db.SetWorker(p, Finished(worker.command, result));
        }
    }
  }

  /** ApplyResult: the submission row and the saga event commit together. */
  method ApplyOutcome(db: Database, p: Id)
    requires db.Valid() && p in db.rows
    modifies db`rows, db`workers, db`submissions, db`outbox
    ensures db.Valid()
    ensures old(db.rows[p]).worker.Finished? ==>
      db.rows == old(db.rows)[p := ApplyResult(old(db.rows[p]), old(db.Clash(p, ResultOf(db.rows[p].worker.command))))]
    ensures !old(db.rows[p]).worker.Finished? ==> db.rows == old(db.rows)
  {
    assert db.Fits(p);
    if p !in db.workers || !db.workers[p].Finished? {
      return;
    }
    var command, result := db.workers[p].command, db.workers[p].result;
    var known := if p in db.submissions then db.submissions[p] else [];
    db.SetWorker(p, Idle);
    var seen := exists s :: s in known && s.command == command;
    if !seen && result.reference != "" && exists s :: s in known && s.reference == result.reference {
      return;
    }
    db.PutSubmission(p, command, result);
    var event := ResultEvent(result);
    if event.Some? {
      db.InsertOutboxOnce(p, OutboxEvent(ResultOf(command), Event(event.value), ResultReason(result)));
    }
  }

  method RestartWorker(db: Database, p: Id)
    requires db.Valid() && p in db.rows
    modifies db`rows, db`workers
    ensures db.Valid() && db.rows == old(db.rows)[p := old(db.rows[p]).(worker := Idle)]
  {
    db.SetWorker(p, Idle);
  }
}
