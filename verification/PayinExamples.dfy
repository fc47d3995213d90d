/** Complete runs of one pay-in that reach the situations in which the code does not do what
    its documentation says, or relies on the inbox. */
module PayinExamples {
  import opened PaymentCore
  import opened Ledger
  import opened Provider
  import opened PayinProtocol
  import opened PayinTheorems
  import opened PayinReceipts

  ghost predicate Leads(steps: seq<Step>, p: Payin) { Run(Opened(), steps) == p }

  lemma Next(steps: seq<Step>, p: Payin, s: Step) returns (longer: seq<Step>)
    requires Leads(steps, p)
    ensures Leads(longer, Perform(p, s))
  {
    RunAppends(Opened(), steps, s);
    longer := steps + [s];
  }

  // ---- Up to the provider's answer --------------------------------------------

  function Opened(): Payin { NewPayin(500, "USDC", "key", "quote") }

  function Waiting(state: PayinState): Option<Saga> { Some(Saga(state, Deadline(state, 0), "")) }

  function Started(): Payin { Opened().(saga := Waiting(PolicyWait), commands := [CommandMessage(PolicyEvaluate, "")]) }

  function Cleared(): Payin {
    Started().(events := [SagaMessage(OfCreation, EventCreated, ""), SagaMessage(Generated(1), EventApproved, "")], next := 1)
  }

  function Executing(): Payin {
    Cleared().(saga := Waiting(ExecutionWait), commands := [CommandMessage(PolicyEvaluate, ""), CommandMessage(PayinExecute, "")])
  }

  function Answered(status: ExecutionStatus): Payin {
    Executing().(settlement := StatusSubmitting, worker := Finished(ExecutionResult("pi_1", status, "", "")))
  }

  lemma ToExecuting() returns (steps: seq<Step>)
    ensures Leads(steps, Executing())
  {
    steps := Next([], Opened(), Deliver(0, 0));
    assert Perform(Opened(), Deliver(0, 0)) == Started();
    steps := Next(steps, Started(), Work(Approve, 1));
    assert Perform(Started(), Work(Approve, 1)) == Cleared();
    steps := Next(steps, Cleared(), Deliver(1, 0));
    assert Perform(Cleared(), Deliver(1, 0)) == Executing();
  }

  lemma ToAnswered(status: ExecutionStatus) returns (steps: seq<Step>)
    requires status != ExecutionFailed
    ensures Leads(steps, Answered(status))
  {
    steps := ToExecuting();
    steps := Next(steps, Executing(), Work(Approve, 0));
    var calling := Executing().(settlement := StatusSubmitting, worker := Calling);
    assert Perform(Executing(), Work(Approve, 0)) == calling;
    var reply := Answer(ExecutionResult("pi_1", status, "", ""));
    steps := Next(steps, calling, Call(reply));
    steps := Next(steps, calling.(worker := Worker.Answered(reply)), Report);
  }

  // ---- A recorded pay-in ------------------------------------------------------

  function Received(): Payin {
    var p := Executing();
    p.(settlement := StatusReceived, status := Processing, reference := "pi_1", timeline := p.timeline + [Processing], next := 2,
       events := p.events + [SagaMessage(OfResult(StatusReceived), EventReceived, "")])
  }

  function Recording(): Payin {
    Received().(saga := Waiting(LedgerWait), commands := Executing().commands + [CommandMessage(LedgerRecord, "")])
  }

  lemma ReceiptIsApplied()
    ensures Perform(Answered(ExecutionSucceeded), Apply(false)) == Received()
  {
    assert !HasEvent(Executing().events, OfResult(StatusReceived));
  }

  lemma RecordIsAsked()
    ensures Perform(Received(), Deliver(2, 0)) == Recording()
  {}

  lemma ToRecording() returns (steps: seq<Step>)
    ensures Leads(steps, Recording())
  {
    steps := ToAnswered(ExecutionSucceeded);
    steps := Next(steps, Answered(ExecutionSucceeded), Apply(false));
    ReceiptIsApplied();
    steps := Next(steps, Received(), Deliver(2, 0));
    RecordIsAsked();
  }

  /** A run that records its pay-in; the execute command it has consumed would undo that. */
  lemma RedeliveryWouldUndoSuccess() returns (steps: seq<Step>, i: nat)
    ensures var p := Run(Opened(), steps);
      && p.status == Succeeded && i < p.next <= |p.commands| && p.commands[i].command == PayinExecute
      && var again := Perform(HandleCommand(p, p.commands[i], Approve, 0), Apply(false));
         again.status == Processing && again.journals == [PayinJournal]
  {
    var before := ToRecording();
    steps := Next(before, Recording(), Work(Approve, 0));
    Reached(Opened(), before);
    RecordEffect(Recording(), Approve, 0);
    RecordKeepsCommands(Recording());
    i := 1;
    RedeliveryUndoesSuccess(Opened(), steps, CommandMessage(PayinExecute, ""), Approve, 0);
    UndoneIsProcessing(Run(Opened(), steps), CommandMessage(PayinExecute, ""));
  }

  lemma RecordKeepsCommands(p: Payin)
    requires AtRecord(p) && p.settlement == StatusReceived
    ensures var p' := Perform(p, Work(Approve, 0)); p'.commands == p.commands && p'.settlement == p.settlement && p'.reference == p.reference
  {}

  lemma UndoneIsProcessing(p: Payin, message: CommandMessage)
    requires message.command == PayinExecute && p.reference != "" && p.settlement == StatusReceived
    ensures Perform(HandleCommand(p, message, Approve, 0), Apply(false)).status == Processing
  {}

  // ---- A receipt that is overwritten ------------------------------------------

  /** A pending answer has been applied. */
  function Pending(): Payin {
    var p := Executing();
    p.(settlement := StatusProcessing, status := Processing, reference := "pi_1", timeline := p.timeline + [Processing], next := 2,
       events := p.events + [SagaMessage(OfResult(StatusProcessing), EventProcessing, "")],
       notices := p.notices + [PublicMessage(OfResult(StatusProcessing), NoticeProcessing)])
  }

  /** The timeout has asked for execution again, and the worker answers from the stored row. */
  function Reissued(): Payin {
    Pending().(saga := Some(Saga(ExecutionWait, Some(OPERATION_TIMEOUT + OPERATION_TIMEOUT), Name(ExecutionWait) + " timeout")),
               commands := Executing().commands + [CommandMessage(PayinExecute, "")])
  }

  const STORED := ExecutionResult("pi_1", ExecutionPending, "", "")

  function Reexecuted(): Payin { Reissued().(worker := Finished(STORED)) }

  /** The provider reports the money, and the saga is told. */
  function Told(): Payin {
    var p := Reexecuted();
    p.(settlement := StatusReceived, timeline := p.timeline + [Processing],
       events := p.events + [SagaMessage(OfDelivery("pi_1", StatusReceived), EventReceived, "completed")])
  }

  /** The stored answer is applied over it. */
  function Overwritten(): Payin {
    var p := Told();
    p.(settlement := StatusProcessing, timeline := p.timeline + [Processing], next := 3, worker := Idle)
  }

  function Unrecordable(): Payin {
    Overwritten().(saga := Some(Saga(LedgerWait, Deadline(LedgerWait, 0), "completed")), commands := Reissued().commands + [CommandMessage(LedgerRecord, "")])
  }

  lemma PendingIsApplied()
    ensures Perform(Answered(ExecutionPending), Apply(false)) == Pending()
  {
    assert !HasEvent(Executing().events, OfResult(StatusProcessing));
    assert !HasNotice(Executing().notices, OfResult(StatusProcessing));
  }

  lemma TimeoutReissues()
    ensures Perform(Pending(), Timeout(OPERATION_TIMEOUT)) == Reissued()
  {}

  lemma ToReexecuted() returns (steps: seq<Step>)
    ensures Leads(steps, Reexecuted())
  {
    steps := ToAnswered(ExecutionPending);
    steps := Next(steps, Answered(ExecutionPending), Apply(false));
    PendingIsApplied();
    steps := Next(steps, Pending(), Timeout(OPERATION_TIMEOUT));
    TimeoutReissues();
    steps := Next(steps, Reissued(), Work(Approve, 0));
    assert Perform(Reissued(), Work(Approve, 0)) == Reexecuted();
  }

  lemma ReceiptIsReported()
    ensures Perform(Reexecuted(), Notify("pi_1", ReportsCompleted)) == Told()
  {
    var p := Reexecuted();
    assert !HasEvent(p.events, OfDelivery("pi_1", StatusReceived));
    CompletionIsReported(p);
  }

  lemma CompletionIsReported(p: Payin)
    requires p.reference == "pi_1" && p.settlement == StatusProcessing && p.status == Processing && p.saga.Some?
    requires !HasEvent(p.events, OfDelivery("pi_1", StatusReceived))
    ensures Perform(p, Notify("pi_1", ReportsCompleted))
         == p.(settlement := StatusReceived, timeline := p.timeline + [Processing],
               events := p.events + [SagaMessage(OfDelivery("pi_1", StatusReceived), EventReceived, "completed")])
  {}

  lemma ReceiptIsOverwritten()
    ensures Perform(Told(), Apply(false)) == Overwritten()
  {
    var p := Told();
    assert p.events[2].id == OfResult(StatusProcessing) && p.events[2] in p.events;
    assert p.notices[1].id == OfResult(StatusProcessing) && p.notices[1] in p.notices;
    StoredIsApplied(p);
  }

  lemma StoredIsApplied(p: Payin)
    requires p.worker == Finished(STORED) && HasEvent(p.events, OfResult(StatusProcessing)) && HasNotice(p.notices, OfResult(StatusProcessing))
    ensures Perform(p, Apply(false)) == p.(reference := "pi_1", settlement := StatusProcessing, status := Processing,
                                           timeline := p.timeline + [Processing], next := p.next + 1, worker := Idle)
  {}

  lemma RecordIsAskedAnyway()
    ensures Perform(Overwritten(), Deliver(3, 0)) == Unrecordable()
  {}

  /** A run in which the provider reports the money, the stored answer of a retried execution
      is applied over the report, and the record that the saga asks for is refused. */
  lemma RecordIsRefused() returns (steps: seq<Step>)
    ensures var p := Run(Opened(), steps);
      Fresh(Opened()) && Refused(p) && Heard(p.events) && p.settlement == StatusProcessing && Perform(p, Work(Approve, 0)) == p
  {
    steps := ToReexecuted();
    steps := Next(steps, Reexecuted(), Notify("pi_1", ReportsCompleted));
    ReceiptIsReported();
    steps := Next(steps, Told(), Apply(false));
    ReceiptIsOverwritten();
    steps := Next(steps, Overwritten(), Deliver(3, 0));
    RecordIsAskedAnyway();
    RefusedAtRecord(steps, Unrecordable());
  }

  lemma RefusedAtRecord(steps: seq<Step>, p: Payin)
    requires Leads(steps, p) && AtRecord(p) && p.settlement == StatusProcessing
    ensures Refused(p) && Heard(p.events) && Perform(p, Work(Approve, 0)) == p
  {
    ReachedFits(Opened(), steps);
    RecordFollowsReceipt(Opened(), steps, p.next);
    RecordEffect(p, Approve, 0);
  }
}
