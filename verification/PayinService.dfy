/** Pay-ins as transactions on the database: creation, saga, command worker, ledger and
    provider reports. */
module PayinService {
  import opened PaymentCore
  import opened Ledger
  import opened Provider
  import opened PayinProtocol
  import opened SagaTimeouts
  import opened Store
  import PaymentWorld
  import LedgerService

  /** The pay-in's rows with its first history entry and its two created events. */
  method AddRow(db: Database, p: Id, amount: int, currency: string, key: string, providerQuote: string)
    requires db.Valid() && p !in db.rows && p !in db.payinRows
    modifies db`payinRows, db`payins, db`timeline, db`payinEvents, db`payinNotices
    ensures db.Valid() && db.payinRows == old(db.payinRows)[p := NewPayin(amount, currency, key, providerQuote)]
  {
    db.AddPayin(p, amount, currency, key, providerQuote);
    db.InsertPayinTimeline(p, Created);
    db.InsertPayinEvent(p, SagaMessage(OfCreation, EventCreated, ""));
    db.InsertPayinNotice(p, PublicMessage(OfCreation, NoticeCreated));
    assert db.payinRows[p] == NewPayin(amount, currency, key, providerQuote);
  }

  /** createPayin, once its quote has been accepted. */
  method Open(db: Database, p: Id, amount: int, currency: string, key: string, providerQuote: string) returns (ok: bool)
    requires db.Valid()
    modifies db`payinRows, db`payins, db`timeline, db`payinEvents, db`payinNotices, db`paymentByKey
    ensures db.Valid() && db.Snapshot() == PaymentWorld.OpenPayin(old(db.Snapshot()), p, amount, currency, key, providerQuote)
    ensures ok <==> p != "" && p !in old(db.rows) && p !in old(db.payinRows) && key !in old(db.paymentByKey)
  {
    assert db.Fits(p) && db.PayinFits(p);
    if p == "" || p in db.payments || p in db.payins || key in db.paymentByKey {
      return false;
    }
    AddRow(db, p, amount, currency, key, providerQuote);
    db.paymentByKey := db.paymentByKey[key := p];
    ok := true;
  }

  // ---- Saga coordinator -------------------------------------------------------

  method EnqueueCommand(db: Database, p: Id, command: PayinCommand)
    requires db.Valid() && p in db.payinRows
    modifies db`payinRows, db`payinCommands
    ensures db.Valid() && db.payinRows == old(db.payinRows)[p := Enqueue(old(db.payinRows[p]), command)]
  {
    var reason := "";
    if command == PayinFail {
      reason := "payin workflow timed out";
    }
    db.InsertPayinCommand(p, CommandMessage(command, reason));
  }

  /** Handle; false is an invalid event, which changes nothing. */
  method Handle(db: Database, p: Id, event: PayinEvent, reason: string, now: int) returns (ok: bool)
    requires db.Valid() && p in db.payinRows
    modifies db`payinRows, db`payinSagas, db`payinCommands
    ensures db.Valid() && db.payinRows == old(db.payinRows)[p := HandleEvent(old(db.payinRows[p]), event, reason, now)]
    ensures ok <==> event == EventCreated || (old(db.payinRows[p]).saga.Some? && Transition(old(db.payinRows[p]).saga.value.state, event) != Invalid)
  {
    assert db.PayinFits(p);
    ok := true;
    if event == EventCreated {
      if p !in db.payinSagas {
        db.PutPayinSaga(p, Saga(PolicyWait, Some(now + OPERATION_TIMEOUT), ""));
        EnqueueCommand(db, p, PolicyEvaluate);
      }
      return;
    }
    if p !in db.payinSagas {
      return false;
    }
    var saga := db.payinSagas[p];
    match Transition(saga.state, event) {
      case Invalid => return false;
      case Ignored => return true;
      case To(state, command) =>
        db.PutPayinSaga(p, Saga(state, Deadline(state, now), if reason != "" then reason else saga.failure));
        if command.Some? {
          EnqueueCommand(db, p, command.value);
        }
    }
  }

  /** The saga row after its timeout. */
  function Renewed(saga: Saga, now: int): Saga {
    Saga(saga.state, Some(now + OPERATION_TIMEOUT), OrElse(saga.failure, Name(saga.state) + " timeout"))
  }

  /** The body of the loop of ExpireOnce. */
  method ExpireClaimed(db: Database, p: Id, now: int)
    requires db.Valid() && p in db.payinRows && Overdue(db.payinRows[p].saga, now)
    modifies db`payinRows, db`payinSagas, db`payinCommands
    ensures db.Valid() && db.payinRows == old(db.payinRows)[p := Expire(old(db.payinRows[p]), now)]
    ensures p in old(db.payinSagas) && db.payinSagas == old(db.payinSagas)[p := Renewed(old(db.payinSagas)[p], now)]
  {
    assert db.PayinFits(p);
    var saga := db.payinSagas[p];
    var command := PayinExecute;
    if saga.state == PolicyWait || saga.state == HoldWait {
      command := PayinFail;
    }
    if saga.state == LedgerWait {
      command := LedgerRecord;
    }
    db.PutPayinSaga(p, Saga(saga.state, Some(now + OPERATION_TIMEOUT), if saga.failure != "" then saga.failure else Name(saga.state) + " timeout"));
    EnqueueCommand(db, p, command);
  }

  // ---- Results ----------------------------------------------------------------

  method EmitOnce(db: Database, p: Id, id: MessageId, event: PayinEvent, reason: string)
    requires db.Valid() && p in db.payinRows
    modifies db`payinRows, db`payinEvents
    ensures db.Valid() && db.payinRows == old(db.payinRows)[p := Emit(old(db.payinRows[p]), id, event, reason)]
  {
    assert db.PayinFits(p);
    var sent := RowsOf(db.payinEvents, p);
    if !exists e :: e in sent && e.id == id {
      db.InsertPayinEvent(p, SagaMessage(id, event, reason));
    }
  }

  method AnnounceOnce(db: Database, p: Id, id: MessageId, notice: Notice)
    requires db.Valid() && p in db.payinRows
    modifies db`payinRows, db`payinNotices
    ensures db.Valid() && db.payinRows == old(db.payinRows)[p := Announce(old(db.payinRows[p]), id, notice)]
  {
    assert db.PayinFits(p);
    var sent := RowsOf(db.payinNotices, p);
    if !exists n :: n in sent && n.id == id {
      db.InsertPayinNotice(p, PublicMessage(id, notice));
    }
  }

  /** The saga event and, if the status has one, the public notice. */
  method Publish(db: Database, p: Id, id: MessageId, event: Option<PayinEvent>, reason: string, notice: Option<Notice>)
    requires db.Valid() && p in db.payinRows
    modifies db`payinRows, db`payinEvents, db`payinNotices
    ensures db.Valid()
    ensures var emitted := if event.None? then old(db.payinRows[p]) else Emit(old(db.payinRows[p]), id, event.value, reason);
      db.payinRows == old(db.payinRows)[p := if notice.None? then emitted else Announce(emitted, id, notice.value)]
  {
    if event.Some? {
      EmitOnce(db, p, id, event.value, reason);
    }
    if notice.Some? {
      AnnounceOnce(db, p, id, notice.value);
    }
  }

  method ReferenceHeld(db: Database, p: Id, reference: string) returns (held: bool)
    requires db.Valid()
    ensures held == PaymentWorld.Held(db.payinRows, p, reference)
  {
    held := exists q :: q in db.payins && q != p && db.payins[q].reference == reference;
    if held {
      var q :| q in db.payins && q != p && db.payins[q].reference == reference;
      assert db.PayinFits(q);
    } else {
      forall q | q in db.payinRows && q != p ensures db.payinRows[q].reference != reference { assert db.PayinFits(q); }
    }
  }

  /** Status, payment status and timeline in one go. */
  method WriteStatus(db: Database, p: Id, status: PaymentStatus, settlement: PayinStatus, reference: string)
    requires db.Valid() && p in db.payinRows
    modifies db`payinRows, db`payins, db`timeline
    ensures db.Valid()
    ensures db.payinRows == old(db.payinRows)[p := old(db.payinRows[p]).(status := status, settlement := settlement, reference := reference,
                                                                        timeline := old(db.payinRows[p]).timeline + [status])]
  {
    db.PutPayin(p, status, settlement, reference);
    db.InsertPayinTimeline(p, status);
  }

  /** ApplyResult; it overwrites the payment status whatever it is. False is the rollback when
      another pay-in holds the reference. */
  method ApplyOutcome(db: Database, p: Id, result: ExecutionResult) returns (ok: bool)
    requires db.Valid() && p in db.payinRows
    modifies db`payinRows, db`payins, db`timeline, db`payinEvents, db`payinNotices
    ensures db.Valid()
    ensures var applied := ApplyResult(old(db.payinRows[p]), result, PaymentWorld.Held(old(db.payinRows), p, result.reference));
      ok == applied.Some? && db.payinRows == if ok then old(db.payinRows)[p := applied.value] else old(db.payinRows)
  {
    var held := ReferenceHeld(db, p, result.reference);
    ok := !held || result.reference == "";
    if ok {
      WriteResult(db, p, result);
    }
  }

  /** The writes of ApplyResult. */
  method WriteResult(db: Database, p: Id, result: ExecutionResult)
    requires db.Valid() && p in db.payinRows
    modifies db`payinRows, db`payins, db`timeline, db`payinEvents, db`payinNotices
    ensures db.Valid() && db.payinRows == old(db.payinRows)[p := ApplyResult(old(db.payinRows[p]), result, false).value]
  {
    var lifecycle := NormalizeStatus(result.status);
    WriteStatus(db, p, PaymentStateFor(lifecycle), lifecycle, result.reference);
    Publish(db, p, OfResult(lifecycle), Some(EventFor(lifecycle)), if result.message != "" then result.message else result.code, NoticeFor(lifecycle));
  }

  // ---- Ledger -----------------------------------------------------------------

  /** The loop that inserts the debit and the credit line. */
  method InsertLines(db: Database, p: Id, amount: int, currency: string)
    requires db.Valid() && p in db.payinRows
    modifies db`payinRows, db`entries
    ensures db.Valid()
    ensures db.payinRows == old(db.payinRows)[p := old(db.payinRows[p]).(entries := old(db.payinRows[p]).entries + Lines(PayinJournal, amount, currency))]
  {
    ghost var table, row, lines := db.entries, db.payinRows[p], Lines(PayinJournal, amount, currency);
    var sides := [(CashOperating, Debit), (SettlementPayable, Credit)];
    assert row.entries + lines[..0] == row.entries;
    for i := 0 to 2
      invariant db.Linked()
      invariant db.payinRows == old(db.payinRows)[p := row.(entries := row.entries + lines[..i])]
      invariant db.entries == if i == 0 then table else if i == 1 then table + [(p, lines[0])] else table + [(p, lines[0])] + [(p, lines[1])]
    {
      assert lines[..i + 1] == lines[..i] + [lines[i]];
      assert row.entries + lines[..i] + [lines[i]] == row.entries + lines[..i + 1];
      db.InsertPayinEntry(p, Entry(PayinJournal, sides[i].0, sides[i].1, amount, currency));
    }
    assert lines[..2] == lines;
    forall of ensures Total(db.entries, of) == 0 {
      LedgerService.PairBalances(table, p, PayinJournal, amount, currency, of);
      assert Total(table, of) == 0;
    }
  }

  /** INSERT ... ON CONFLICT(payment_id, event_type) DO NOTHING, with the lines of a new journal. */
  method PostJournal(db: Database, p: Id)
    requires db.Valid() && p in db.payinRows
    modifies db`payinRows, db`journals, db`entries
    ensures db.Valid()
    ensures var row := old(db.payinRows[p]);
      db.payinRows == old(db.payinRows)[p := if PayinJournal in row.journals then row
        else row.(journals := row.journals + [PayinJournal], entries := row.entries + Lines(PayinJournal, row.amount, row.currency))]
  {
    assert db.PayinFits(p);
    RowsOfIn(db.journals, p, PayinJournal);
    if (p, PayinJournal) in db.journals {
      return;
    }
    var record := db.payins[p];
    db.AppendPayinJournal(p, PayinJournal);
    InsertLines(db, p, record.amount, record.currency);
  }

  /** RecordPayin; false is a pay-in that has not been received, and changes nothing. */
  method Record(db: Database, p: Id) returns (ok: bool)
    requires db.Valid() && p in db.payinRows
    modifies db`payinRows, db`payins, db`journals, db`entries, db`timeline, db`payinEvents, db`payinNotices
    ensures db.Valid()
    ensures var recorded := RecordPayin(old(db.payinRows[p]));
      ok == recorded.Some? && db.payinRows == if ok then old(db.payinRows)[p := recorded.value] else old(db.payinRows)
  {
    assert db.PayinFits(p);
    var record := db.payins[p];
    if record.settlement != StatusReceived {
      return false;
    }
    PostJournal(db, p);
    WriteStatus(db, p, Succeeded, record.settlement, record.reference);
    Publish(db, p, OfRecord, Some(EventSucceeded), "", Some(NoticeSucceeded));
    ok := true;
  }

  // ---- Command worker ---------------------------------------------------------

  /** ExecutePayin up to the provider call. */
  method PrepareExecution(db: Database, p: Id)
    requires db.Valid() && p in db.payinRows
    modifies db`payinRows, db`payins, db`payinWorkers
    ensures db.Valid() && db.payinRows == old(db.payinRows)[p := Prepare(old(db.payinRows[p]))]
  {
    assert db.PayinFits(p);
    var record := db.payins[p];
    if record.reference != "" {
      db.SetPayinWorker(p, Finished(ExecutionResult(record.reference, PersistedExecution(record.settlement), "", "")));
      return;
    }
    if record.settlement != StatusCreated && record.settlement != StatusSubmitting && record.settlement != StatusUnknown {
      return;
    }
    db.PutPayin(p, record.status, StatusSubmitting, record.reference);
    if record.key != "" && record.providerQuote != "" {
      db.SetPayinWorker(p, Calling);
    }
  }

  /** CommandHandler.Handle on one command; true says that its inbox transaction commits. */
  method WorkCommand(db: Database, p: Id, message: CommandMessage, decision: Decision, id: nat) returns (done: bool)
    requires db.Valid() && p in db.payinRows
    modifies db`payinRows, db`payins, db`journals, db`entries, db`timeline, db`payinEvents, db`payinNotices, db`payinWorkers
    ensures db.Valid()
    ensures p in db.payinRows && db.payinRows == old(db.payinRows)[p := db.payinRows[p]]
    ensures HandleCommand(old(db.payinRows[p]), message, decision, id) == if done then Done(db.payinRows[p]) else db.payinRows[p]
  {
    done := false;
    match message.command {
      case PolicyEvaluate =>
        match decision {
          case Approve =>
            db.InsertPayinEvent(p, SagaMessage(Generated(id), EventApproved, ""));
            done := true;
          case Reject(why) => done := ApplyOutcome(db, p, FailedResult("", why));
          case PolicyError =>
        }
      case PayinExecute => PrepareExecution(db, p);
      case LedgerRecord => done := Record(db, p);
      case PayinFail => done := ApplyOutcome(db, p, FailedResult("", message.reason));
    }
  }

  /** The command at the cursor, taken by an idle worker. */
  method Work(db: Database, p: Id, decision: Decision, id: nat)
    requires db.Valid() && p in db.payinRows
    modifies db`payinRows, db`payins, db`journals, db`entries, db`timeline, db`payinEvents, db`payinNotices, db`payinWorkers, db`payinCursors
    ensures db.Valid() && db.payinRows == old(db.payinRows)[p := Perform(old(db.payinRows[p]), PayinProtocol.Work(decision, id))]
  {
    assert db.PayinFits(p);
    var commands := RowsOf(db.payinCommands, p);
    var next := if p in db.payinCursors then db.payinCursors[p] else 0;
    if (p in db.payinWorkers && db.payinWorkers[p] != Idle) || next >= |commands| {
      return;
    }
    var done := WorkCommand(db, p, commands[next], decision, id);
    if done {
      AdvanceCursor(db, p);
    }
  }

  method AdvanceCursor(db: Database, p: Id)
    requires db.Valid() && p in db.payinRows
    modifies db`payinRows, db`payinCursors
    ensures db.Valid() && db.payinRows == old(db.payinRows)[p := Done(old(db.payinRows[p]))]
  {
    assert db.PayinFits(p);
    var next := if p in db.payinCursors then db.payinCursors[p] else 0;
    db.SetCursor(p, next + 1);
  }

  /** The provider call of a worker that is about to make it. */
  method CallProvider(db: Database, p: Id, reply: ProviderReply)
    requires db.Valid() && p in db.payinRows
    modifies db`payinRows, db`payinWorkers
    ensures db.Valid() && db.payinRows == old(db.payinRows)[p := Perform(old(db.payinRows[p]), Call(reply))]
  {
    assert db.PayinFits(p);
    if p in db.payinWorkers && db.payinWorkers[p] == Calling {
      db.SetPayinWorker(p, Answered(reply));
    }
  }

  /** The outcome of the provider call; recordError only touches a row still submitting. */
  method Report(db: Database, p: Id)
    requires db.Valid() && p in db.payinRows
    modifies db`payinRows, db`payins, db`payinWorkers
    ensures db.Valid() && db.payinRows == old(db.payinRows)[p := Perform(old(db.payinRows[p]), PayinProtocol.Report)]
  {
    assert db.PayinFits(p);
    if p !in db.payinWorkers || !db.payinWorkers[p].Answered? {
      return;
    }
    match db.payinWorkers[p].reply {
      case Answer(result) => db.SetPayinWorker(p, if result.Valid() then Finished(result) else Idle);
      case Fault =>
        RecordError(db, p, StatusUnknown);
        db.SetPayinWorker(p, Idle);
      case Refusal(message, code, retryable) =>
        RecordError(db, p, if retryable then StatusUnknown else StatusFailed);
        db.SetPayinWorker(p, if retryable then Idle else Finished(FailedResult(code, message)));
    }
  }

  method RecordError(db: Database, p: Id, status: PayinStatus)
    requires db.Valid() && p in db.payinRows
    modifies db`payinRows, db`payins
    ensures db.Valid()
    ensures var row := old(db.payinRows[p]);
      db.payinRows == old(db.payinRows)[p := if row.settlement == StatusSubmitting then row.(settlement := status) else row]
  {
    assert db.PayinFits(p);
    var record := db.payins[p];
    if record.settlement == StatusSubmitting {
      db.PutPayin(p, record.status, status, record.reference);
    }
  }

  /** The end of the execute command: its result is applied and the command is done, or the
      transaction rolls back because the reference is taken. */
  method Apply(db: Database, p: Id)
    requires db.Valid() && p in db.payinRows
    modifies db`payinRows, db`payins, db`timeline, db`payinEvents, db`payinNotices, db`payinWorkers, db`payinCursors
    ensures db.Valid()
    ensures db.payinRows == old(db.payinRows)[p := Perform(old(db.payinRows[p]), PaymentWorld.Settled(old(db.payinRows), p, PayinProtocol.Apply(false)))]
  {
    assert db.PayinFits(p);
    if p !in db.payinWorkers || !db.payinWorkers[p].Finished? {
      return;
    }
    var result := db.payinWorkers[p].result;
    var ok := ApplyOutcome(db, p, result);
    db.SetPayinWorker(p, Idle);
    if ok {
      AdvanceCursor(db, p);
    }
  }

  // ---- Provider reports -------------------------------------------------------

  /** applyPayinWebhook; "pending" fails the table's CHECK and rolls the delivery back, and a
      succeeded payment keeps its status whatever the provider reports. */
  method ApplyReport(db: Database, p: Id, reported: ProviderStatus)
    requires db.Valid() && p in db.payinRows
    modifies db`payinRows, db`payins, db`timeline, db`payinEvents, db`payinNotices
    ensures db.Valid() && db.payinRows == old(db.payinRows)[p := Webhook(old(db.payinRows[p]), reported)]
  {
    assert db.PayinFits(p);
    var lifecycle, record := Lifecycle(reported), db.payins[p];
    if lifecycle.None? || record.settlement == lifecycle.value || record.settlement == StatusFailed || record.settlement == StatusRefunded {
      return;
    }
    var succeeded := record.status == Succeeded;
    WriteStatus(db, p, if succeeded then Succeeded else PaymentStateFor(lifecycle.value), lifecycle.value, record.reference);
    Publish(db, p, OfDelivery(record.reference, lifecycle.value), if p in db.payinSagas then Some(EventFor(lifecycle.value)) else None,
            StatusText(reported), if succeeded then None else NoticeFor(lifecycle.value));
  }

  /** Process for a payin.* delivery: it finds the pay-in by its reference, and a delivery that
      names no known pay-in changes nothing. */
  method Process(db: Database, reference: string, reported: ProviderStatus) returns (target: Option<Id>)
    requires db.Valid()
    modifies db`payinRows, db`payins, db`timeline, db`payinEvents, db`payinNotices
    ensures db.Valid()
    ensures target.Some? ==> target.value in old(db.payinRows) && old(db.payinRows)[target.value].reference == reference != ""
    ensures target.None? ==> reference == "" || forall p | p in old(db.payinRows) :: old(db.payinRows)[p].reference != reference
    ensures db.payinRows == if target.None? then old(db.payinRows)
      else old(db.payinRows)[target.value := Perform(old(db.payinRows)[target.value], Notify(reference, reported))]
  {
    if reference == "" {
      return None;
    }
    if p :| p in db.payins && db.payins[p].reference == reference {
      assert db.PayinFits(p);
      ApplyReport(db, p, reported);
      target := Some(p);
    } else {
      target := None;
      forall p | p in db.payinRows ensures db.payinRows[p].reference != reference { assert db.PayinFits(p); }
    }
  }

  // ---- One step ---------------------------------------------------------------

  method Restart(db: Database, p: Id)
    requires db.Valid() && p in db.payinRows
    modifies db`payinRows, db`payinWorkers
    ensures db.Valid() && db.payinRows == old(db.payinRows)[p := old(db.payinRows[p]).(worker := Idle)]
  {
    db.SetPayinWorker(p, Idle);
  }

  /** One transaction on a stored pay-in is the protocol step of that name. */
  method Take(db: Database, p: Id, s: Step)
    requires db.Valid() && p in db.payinRows
    modifies db`payinRows, db`payins, db`journals, db`entries, db`timeline, db`payinSagas, db`payinEvents, db`payinCommands, db`payinNotices, db`payinCursors, db`payinWorkers
    ensures db.Valid() && db.payinRows == old(db.payinRows)[p := Perform(old(db.payinRows[p]), PaymentWorld.Settled(old(db.payinRows), p, s))]
  {
    assert db.PayinFits(p);
    match s {
      case Deliver(i, now) =>
        var events := RowsOf(db.payinEvents, p);
        if i < |events| {
          var _ := Handle(db, p, events[i].event, events[i].reason, now);
        }
      case Timeout(now) =>
        if p in db.payinSagas && Overdue(Some(db.payinSagas[p]), now) {
          ExpireClaimed(db, p, now);
        }
      case Work(decision, id) => Work(db, p, decision, id);
      case Call(reply) => CallProvider(db, p, reply);
      case Report => Report(db, p);
      case Apply(_) => Apply(db, p);
      case Crash => Restart(db, p);
      case Notify(reference, reported) =>
        if reference != "" && reference == db.payins[p].reference {
          ApplyReport(db, p, reported);
        }
    }
  }

  // ---- Timeouts ---------------------------------------------------------------

  type Sagas = map<Id, Saga>

  /** The deadlines that the timeout query looks at. */
  function DueOf(sagas: Sagas): Deadlines {
    map p | p in sagas && Expirable(sagas[p].state) && sagas[p].deadline.Some? :: sagas[p].deadline.value
  }

  /** The sagas after one call has renewed the ones it claimed. */
  function Expired(sagas: Sagas, claimed: seq<Id>, now: int): Sagas {
    map p | p in sagas :: if p in claimed then Renewed(sagas[p], now) else sagas[p]
  }

  /** The pay-ins after one timeout step of each that was claimed. */
  function ExpireAll(payins: map<Id, Payin>, claimed: seq<Id>, now: int): map<Id, Payin> {
    map p | p in payins :: if p in claimed then Expire(payins[p], now) else payins[p]
  }

  /** A claimed pay-in is asked for again and gets a deadline after the clock. */
  lemma ExpiryPostpones(sagas: Sagas, claimed: seq<Id>, now: int)
    requires forall i | 0 <= i < |claimed| :: claimed[i] in OverdueSet(DueOf(sagas), now)
    ensures Postponed(DueOf(sagas), DueOf(Expired(sagas, claimed, now)), claimed, now)
  {
    var after := Expired(sagas, claimed, now);
    forall p | p in claimed
      ensures p !in DueOf(after) || DueOf(after)[p] > now
    {
      assert p in OverdueSet(DueOf(sagas), now);
    }
  }

  lemma ClaimedIsStored(db: Database, p: Id, now: int)
    requires db.Valid() && p in OverdueSet(DueOf(db.payinSagas), now)
    ensures p in db.payinSagas && Overdue(Some(db.payinSagas[p]), now)
    ensures p in db.payinRows && db.payinRows[p].saga == Some(db.payinSagas[p])
  {
    assert db.PayinFits(p);
  }

  /** One iteration of the loop over the claimed sagas. */
  method ExpireNext(db: Database, ghost payins: map<Id, Payin>, ghost sagas: Sagas, claimed: seq<Id>, i: nat, now: int)
    requires db.Valid() && i < |claimed| && claimed[i] !in claimed[..i] && claimed[i] in sagas && Overdue(Some(sagas[claimed[i]]), now)
    requires claimed[i] in payins && payins[claimed[i]].saga == Some(sagas[claimed[i]])
    requires db.payinRows == ExpireAll(payins, claimed[..i], now) && db.payinSagas == Expired(sagas, claimed[..i], now)
    modifies db`payinRows, db`payinSagas, db`payinCommands
    ensures db.Valid()
    ensures db.payinRows == ExpireAll(payins, claimed[..i + 1], now) && db.payinSagas == Expired(sagas, claimed[..i + 1], now)
  {
    assert claimed[..i + 1] == claimed[..i] + [claimed[i]];
    ExpireClaimed(db, claimed[i], now);
  }

  /** ExpireOnce: the overdue pay-ins with the earliest deadlines, up to the batch size, each
      take exactly their timeout step, and no other pay-in is touched. */
  method ExpireOnce(db: Database, now: int, batch: nat) returns (claimed: seq<Id>)
    requires db.Valid()
    modifies db`payinRows, db`payinSagas, db`payinCommands
    ensures db.Valid() && Claims(DueOf(old(db.payinSagas)), now, batch, claimed)
    ensures db.payinRows == ExpireAll(old(db.payinRows), claimed, now) && db.payinSagas == Expired(old(db.payinSagas), claimed, now)
    ensures Postponed(DueOf(old(db.payinSagas)), DueOf(db.payinSagas), claimed, now)
  {
    claimed := Claim(DueOf(db.payinSagas), now, batch);
    ghost var payins, sagas := db.payinRows, db.payinSagas;
    forall i | 0 <= i < |claimed|
      ensures claimed[i] in sagas && Overdue(Some(sagas[claimed[i]]), now)
      ensures claimed[i] in payins && payins[claimed[i]].saga == Some(sagas[claimed[i]])
    {
      ClaimedIsStored(db, claimed[i], now);
    }
    for i := 0 to |claimed|
      invariant db.Valid()
      invariant db.payinRows == ExpireAll(payins, claimed[..i], now) && db.payinSagas == Expired(sagas, claimed[..i], now)
    {
      ExpireNext(db, payins, sagas, claimed, i, now);
    }
    assert claimed[..|claimed|] == claimed;
    ExpiryPostpones(sagas, claimed, now);
  }

  /** Calls that claim different sagas move each of them once. */
  lemma ExpiredTwice(sagas: Sagas, first: seq<Id>, second: seq<Id>, now: int)
    requires forall p | p in second :: p !in first
    ensures Expired(Expired(sagas, first, now), second, now) == Expired(sagas, first + second, now)
  {}

  /** TimeoutWorker: so many calls at one clock. Nothing is overdue afterwards iff they were
      enough for the overdue sagas; each claimed saga has taken exactly one timeout step, in
      the order of the deadlines, and no other saga has changed. */
  method TimeoutWorker(db: Database, now: int, batch: nat, calls: nat) returns (rounds: seq<seq<Id>>)
    requires db.Valid() && batch > 0
    modifies db`payinRows, db`payinSagas, db`payinCommands
    ensures db.Valid() && |rounds| == calls
    ensures Drained(DueOf(old(db.payinSagas)), DueOf(db.payinSagas), now, batch, calls, Claimed(rounds, calls))
    ensures db.payinSagas == Expired(old(db.payinSagas), Claimed(rounds, calls), now)
  {
    rounds := [];
    ghost var dues := [DueOf(db.payinSagas)];
    assert db.payinSagas == Expired(db.payinSagas, [], now);
    for i := 0 to calls
      invariant db.Valid() && |rounds| == i && Rounds(dues, now, batch, rounds)
      invariant dues[0] == DueOf(old(db.payinSagas)) && dues[i] == DueOf(db.payinSagas)
      invariant db.payinSagas == Expired(old(db.payinSagas), Claimed(rounds, i), now)
    {
      var claimed := ExpireOnce(db, now, batch);
      RoundsGrow(dues, now, batch, rounds, DueOf(db.payinSagas), claimed);
      ghost var longer := rounds + [claimed];
      RoundsPartition(dues + [DueOf(db.payinSagas)], now, batch, longer, i + 1);
      assert forall p | p in claimed :: p !in Claimed(rounds, i) by { ConcatDisjoint(Claimed(rounds, i), claimed); }
      ExpiredTwice(old(db.payinSagas), Claimed(rounds, i), claimed, now);
      dues := dues + [DueOf(db.payinSagas)];
      rounds := rounds + [claimed];
    }
    RoundsDrain(dues, now, batch, rounds);
  }
}
