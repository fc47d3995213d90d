/** Safety of a pay-in over every run. ApplyResult overwrites the payment status without
    looking at it, so everything rests on the order of commands. */
module PayinTheorems {
  import opened PaymentCore
  import opened Ledger
  import opened Provider
  import opened PayinProtocol

  // ---- The invariant ----------------------------------------------------------

  predicate IsRecord(m: CommandMessage) { m.command == LedgerRecord }

  /** Once the ledger has been asked to record the pay-in, nothing else is ever asked. */
  ghost predicate RecordsLast(commands: seq<CommandMessage>) {
    forall i, j | 0 <= i < j < |commands| && IsRecord(commands[i]) :: IsRecord(commands[j])
  }

  predicate Recording(state: PayinState) {
    state == LedgerWait || state == SagaCompleted || state == SagaFailed
  }

  ghost predicate CommandsFit(commands: seq<CommandMessage>, saga: Option<Saga>) {
    && RecordsLast(commands)
    && (saga.None? ==> commands == [])
    && (saga.Some? && !Recording(saga.value.state) ==> forall i | 0 <= i < |commands| :: !IsRecord(commands[i]))
  }

  predicate SagaFits(saga: Option<Saga>, status: PaymentStatus) {
    saga.Some? ==>
      && (saga.value.deadline.Some? <==> Expirable(saga.value.state))
      && saga.value.state != SagaRefunded
      && (saga.value.state == SagaCompleted ==> status == Succeeded)
  }

  predicate EventFits(e: PayinEvent, status: PaymentStatus) {
    e != EventRefunded && (e == EventSucceeded ==> status == Succeeded)
  }

  ghost predicate MessagesFit(events: seq<SagaMessage>, notices: seq<PublicMessage>, status: PaymentStatus) {
    && (forall i | 0 <= i < |events| :: EventFits(events[i].event, status))
    && (forall i | 0 <= i < |notices| && notices[i].notice == NoticeSucceeded :: status == Succeeded)
  }

  /** The worker is busy only with the execute command at the cursor, and a succeeded
      payment has just had a record command committed. */
  ghost predicate CursorFits(commands: seq<CommandMessage>, next: nat, worker: Worker, status: PaymentStatus) {
    && next <= |commands|
    && (worker != Idle ==> next < |commands| && commands[next].command == PayinExecute)
    && (status == Succeeded ==> exists i :: 0 <= i < next && IsRecord(commands[i]))
  }

  ghost predicate LedgerFits(p: Payin) {
    && p.journals == (if p.status == Succeeded then [PayinJournal] else [])
    && p.entries == AllLines(p.journals, p.amount, p.currency)
    && |p.timeline| > 0 && p.timeline[|p.timeline| - 1] == p.status
    && p.settlement != StatusRefunded
  }

  ghost predicate Inv(p: Payin) {
    && CommandsFit(p.commands, p.saga)
    && SagaFits(p.saga, p.status)
    && MessagesFit(p.events, p.notices, p.status)
    && CursorFits(p.commands, p.next, p.worker, p.status)
    && LedgerFits(p)
  }

  lemma NewPayinInv(amount: int, currency: string, key: string, providerQuote: string)
    ensures Inv(NewPayin(amount, currency, key, providerQuote))
  {}

  // ---- Saga steps -------------------------------------------------------------

  lemma EnqueueKeeps(p: Payin, saga: Saga, command: PayinCommand)
    requires Inv(p) && SagaFits(Some(saga), p.status)
    requires command == LedgerRecord ==> Recording(saga.state)
    requires command != LedgerRecord ==> forall i | 0 <= i < |p.commands| :: !IsRecord(p.commands[i])
    requires !Recording(saga.state) ==> forall i | 0 <= i < |p.commands| :: !IsRecord(p.commands[i])
    ensures Inv(Enqueue(p.(saga := Some(saga)), command))
  {
    var commands := Enqueue(p.(saga := Some(saga)), command).commands;
    assert forall i | 0 <= i < |p.commands| :: commands[i] == p.commands[i];
    if p.status == Succeeded {
      var i :| 0 <= i < p.next && IsRecord(p.commands[i]);
      assert IsRecord(commands[i]);
    }
  }

  lemma EventKeeps(p: Payin, event: PayinEvent, reason: string, now: int)
    requires Inv(p) && EventFits(event, p.status)
    ensures Inv(HandleEvent(p, event, reason, now))
  {
    if event == EventCreated {
      if p.saga.None? { EnqueueKeeps(p, Saga(PolicyWait, Deadline(PolicyWait, now), ""), PolicyEvaluate); }
    } else if p.saga.Some? && Transition(p.saga.value.state, event).To? {
      var to := Transition(p.saga.value.state, event);
      var saga := Saga(to.state, Deadline(to.state, now), OrElse(reason, p.saga.value.failure));
      if to.command.Some? { EnqueueKeeps(p, saga, to.command.value); }
    }
  }

  lemma ExpireKeeps(p: Payin, now: int)
    requires Inv(p)
    ensures Inv(Expire(p, now))
  {
    if Overdue(p.saga, now) {
      var saga := p.saga.value;
      EnqueueKeeps(p, saga.(deadline := Some(now + OPERATION_TIMEOUT), failure := OrElse(saga.failure, Name(saga.state) + " timeout")),
                   TimeoutCommand(saga.state));
    }
  }

  // ---- Worker steps -----------------------------------------------------------

  /** At a command other than record, nothing has been recorded yet. */
  lemma NotYetRecorded(p: Payin)
    requires Inv(p) && p.next < |p.commands| && !IsRecord(p.commands[p.next])
    ensures p.status != Succeeded
  {
    assert forall i | 0 <= i < p.next && IsRecord(p.commands[i]) :: IsRecord(p.commands[p.next]);
  }

  lemma EmitKeeps(p: Payin, id: MessageId, event: PayinEvent, reason: string)
    requires Inv(p) && EventFits(event, p.status)
    ensures Inv(Emit(p, id, event, reason))
  {}

  lemma AnnounceKeeps(p: Payin, id: MessageId, notice: Notice)
    requires Inv(p) && (notice == NoticeSucceeded ==> p.status == Succeeded)
    ensures Inv(Announce(p, id, notice))
  {}

  lemma ResultKeeps(p: Payin, result: ExecutionResult)
    requires Inv(p) && p.next < |p.commands| && !IsRecord(p.commands[p.next])
    ensures Inv(Done(ApplyResult(p, result, false).value.(worker := Idle)))
    ensures ApplyResult(p, result, false).value.worker == p.worker
  {
    NotYetRecorded(p);
    var settlement := NormalizeStatus(result.status);
    var status := PaymentStateFor(settlement);
    var updated := p.(reference := result.reference, settlement := settlement, status := status, timeline := p.timeline + [status]);
    var emitted := Emit(updated, OfResult(settlement), EventFor(settlement), OrElse(result.message, result.code));
    EmitKeeps(updated, OfResult(settlement), EventFor(settlement), OrElse(result.message, result.code));
    if NoticeFor(settlement).Some? { AnnounceKeeps(emitted, OfResult(settlement), NoticeFor(settlement).value); }
  }

  lemma RecordKeeps(p: Payin)
    requires Inv(p) && p.worker == Idle && p.next < |p.commands| && IsRecord(p.commands[p.next])
    ensures RecordPayin(p).Some? ==> Inv(Done(RecordPayin(p).value)) && RecordPayin(p).value.status == Succeeded
  {
    if RecordPayin(p).Some? {
      var completed := p.(journals := [PayinJournal], entries := AllLines([PayinJournal], p.amount, p.currency), status := Succeeded,
                          timeline := p.timeline + [Succeeded]);
      OneJournal(p.amount, p.currency);
      CompletedInv(p);
      EmitKeeps(Done(completed), OfRecord, EventSucceeded, "");
      AnnounceKeeps(Emit(Done(completed), OfRecord, EventSucceeded, ""), OfRecord, NoticeSucceeded);
      DoneCommutes(completed);
    }
  }

  lemma DoneCommutes(p: Payin)
    ensures Announce(Emit(Done(p), OfRecord, EventSucceeded, ""), OfRecord, NoticeSucceeded)
         == Done(Announce(Emit(p, OfRecord, EventSucceeded, ""), OfRecord, NoticeSucceeded))
  {}

  lemma OneJournal(amount: int, currency: string)
    ensures AllLines([PayinJournal], amount, currency) == [] + Lines(PayinJournal, amount, currency)
  {
    assert [PayinJournal][..0] == [];
  }

  lemma CompletedInv(p: Payin)
    requires Inv(p) && p.worker == Idle && p.next < |p.commands| && IsRecord(p.commands[p.next]) && p.settlement == StatusReceived
    ensures Inv(Done(p.(journals := [PayinJournal], entries := AllLines([PayinJournal], p.amount, p.currency), status := Succeeded,
                        timeline := p.timeline + [Succeeded])))
  {
    assert IsRecord(p.commands[p.next]) && p.next < p.next + 1;
  }

  lemma WorkKeeps(p: Payin, decision: Decision, id: nat)
    requires Inv(p) && p.worker == Idle && p.next < |p.commands|
    ensures Inv(HandleCommand(p, p.commands[p.next], decision, id))
  {
    var message := p.commands[p.next];
    match message.command
    case PolicyEvaluate => NotYetRecorded(p); if decision.Reject? { ResultKeeps(p, FailedResult("", decision.reason)); }
    case PayinExecute => NotYetRecorded(p);
    case LedgerRecord => RecordKeeps(p);
    case PayinFail => ResultKeeps(p, FailedResult("", message.reason));
  }

  lemma ReportedInv(p: Payin, settlement: PayinStatus)
    requires Inv(p) && settlement != StatusRefunded
    ensures var status := if p.status == Succeeded then Succeeded else PaymentStateFor(settlement);
      Inv(p.(settlement := settlement, status := status, timeline := p.timeline + [status]))
  {}

  lemma WebhookKeeps(p: Payin, reported: ProviderStatus)
    requires Inv(p)
    ensures Inv(Webhook(p, reported))
  {
    var lifecycle := Lifecycle(reported);
    if lifecycle.Some? {
      var settlement := lifecycle.value;
      var status := if p.status == Succeeded then Succeeded else PaymentStateFor(settlement);
      var updated := p.(settlement := settlement, status := status, timeline := p.timeline + [status]);
      ReportedInv(p, settlement);
      var id := OfDelivery(p.reference, settlement);
      EmitKeeps(updated, id, EventFor(settlement), StatusText(reported));
      var emitted := if p.saga.None? then updated else Emit(updated, id, EventFor(settlement), StatusText(reported));
      if NoticeFor(settlement).Some? { AnnounceKeeps(emitted, id, NoticeFor(settlement).value); }
    }
  }

  lemma PerformKeeps(p: Payin, s: Step)
    requires Inv(p)
    ensures Inv(Perform(p, s))
  {
    match s
    case Deliver(i, now) => if i < |p.events| { EventKeeps(p, p.events[i].event, p.events[i].reason, now); }
    case Timeout(now) => ExpireKeeps(p, now);
    case Work(decision, id) => if p.worker == Idle && p.next < |p.commands| { WorkKeeps(p, decision, id); }
    case Call(reply) =>
    case Report =>
    case Apply(taken) => if p.worker.Finished? { ResultKeeps(p, p.worker.result); }
    case Crash =>
    case Notify(reference, reported) => WebhookKeeps(p, reported);
  }

  lemma {:induction false} RunKeeps(p: Payin, steps: seq<Step>)
    requires Inv(p)
    ensures Inv(Run(p, steps))
    decreases |steps|
  {
    if steps != [] {
      PerformKeeps(p, steps[0]);
      RunKeeps(Perform(p, steps[0]), steps[1..]);
    }
  }

  // ---- Theorems ---------------------------------------------------------------

  ghost predicate Fresh(p: Payin) {
    p == NewPayin(p.amount, p.currency, p.key, p.providerQuote)
  }

  lemma Reached(p0: Payin, steps: seq<Step>)
    requires Fresh(p0)
    ensures Inv(Run(p0, steps))
  {
    NewPayinInv(p0.amount, p0.currency, p0.key, p0.providerQuote);
    RunKeeps(p0, steps);
  }

  /** No payin.execute, payin.fail or policy command is enqueued after the first
      payin.ledger.record, however late, repeated or reordered the saga's events are. */
  lemma RecordEndsExecution(p0: Payin, steps: seq<Step>, i: nat, j: nat)
    requires Fresh(p0) && i < j < |Run(p0, steps).commands| && Run(p0, steps).commands[i].command == LedgerRecord
    ensures Run(p0, steps).commands[j].command == LedgerRecord
  {
    Reached(p0, steps);
    assert IsRecord(Run(p0, steps).commands[i]);
  }

  lemma StepKeepsSucceeded(p: Payin, s: Step)
    requires Inv(p) && p.status == Succeeded
    ensures Perform(p, s).status == Succeeded && Perform(p, s).journals == p.journals
  {
    if p.next < |p.commands| && !IsRecord(p.commands[p.next]) {
      NotYetRecorded(p);
    }
  }

  /** Once the payment has succeeded, no later step changes its status or its journals. */
  lemma {:induction false} SucceededIsFinal(p: Payin, steps: seq<Step>)
    requires Inv(p) && p.status == Succeeded
    ensures Run(p, steps).status == Succeeded && Run(p, steps).journals == [PayinJournal]
    decreases |steps|
  {
    if steps != [] {
      PerformKeeps(p, steps[0]);
      StepKeepsSucceeded(p, steps[0]);
      SucceededIsFinal(Perform(p, steps[0]), steps[1..]);
    }
  }

  lemma ReachedSuccessIsFinal(p0: Payin, before: seq<Step>, after: seq<Step>)
    requires Fresh(p0) && Run(p0, before).status == Succeeded
    ensures Run(Run(p0, before), after).status == Succeeded && Run(Run(p0, before), after).journals == [PayinJournal]
  {
    Reached(p0, before);
    SucceededIsFinal(Run(p0, before), after);
  }

  /** A payment has succeeded iff its one journal exists; cash holds its amount exactly
      then; a completed saga, a succeeded event and a succeeded notice all imply it. */
  lemma SuccessMeansRecorded(p0: Payin, steps: seq<Step>)
    requires Fresh(p0)
    ensures var p := Run(p0, steps);
      && p.journals == (if p.status == Succeeded then [PayinJournal] else [])
      && Balance(p.entries, CashOperating, p.currency) == (if p.status == Succeeded then p.amount else 0)
      && Balance(p.entries, SettlementPayable, p.currency) == -Balance(p.entries, CashOperating, p.currency)
      && (p.saga.Some? && p.saga.value.state == SagaCompleted ==> p.status == Succeeded)
      && (forall i | 0 <= i < |p.notices| && p.notices[i].notice == NoticeSucceeded :: p.status == Succeeded)
      && |p.timeline| > 0 && p.timeline[|p.timeline| - 1] == p.status
      && (p.saga.Some? ==> (p.saga.value.deadline.Some? <==> Expirable(p.saga.value.state)))
  {
    Reached(p0, steps);
    var p := Run(p0, steps);
    JournalsBalance(p.journals, p.amount, p.currency, CashOperating);
    JournalsBalance(p.journals, p.amount, p.currency, SettlementPayable);
    assert [PayinJournal][..0] == [];
    assert NetCash([PayinJournal], p.amount) == NetCash([], p.amount) + p.amount;
  }

  /** The refund stage is dead: no webhook yields it, so no pay-in or saga is refunded. */
  lemma RefundsNeverHappen(p0: Payin, steps: seq<Step>)
    requires Fresh(p0)
    ensures var p := Run(p0, steps);
      && p.settlement != StatusRefunded
      && (p.saga.Some? ==> p.saga.value.state != SagaRefunded)
      && (forall i | 0 <= i < |p.events| :: p.events[i].event != EventRefunded)
  {
    Reached(p0, steps);
    var p := Run(p0, steps);
    forall i | 0 <= i < |p.events| ensures p.events[i].event != EventRefunded { assert EventFits(p.events[i].event, p.status); }
  }

  lemma {:induction false} RunAppends(p: Payin, steps: seq<Step>, s: Step)
    ensures Run(p, steps + [s]) == Perform(Run(p, steps), s)
    decreases |steps|
  {
    if steps == [] {
      assert [s][1..] == [];
    } else {
      assert (steps + [s])[1..] == steps[1..] + [s];
      RunAppends(Perform(p, steps[0]), steps[1..], s);
    }
  }
}
