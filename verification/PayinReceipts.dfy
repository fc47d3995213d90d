/** What provider reports do to a pay-in, when its receipt can be recorded, and why commands
    must not be consumed twice. */
module PayinReceipts {
  import opened PaymentCore
  import opened Ledger
  import opened Provider
  import opened PayinProtocol
  import opened PayinTheorems

  // ---- Stages and their events ------------------------------------------------

  /** Where an event leads, whatever stage accepts it. */
  function Target(event: PayinEvent): PayinState {
    match event
    case EventCreated => PolicyWait
    case EventApproved => ExecutionWait
    case EventProcessing => ProviderWait
    case EventOnHold => HoldWait
    case EventReceived => LedgerWait
    case EventSucceeded => SagaCompleted
    case EventFailed => SagaFailed
    case EventRefunded => SagaRefunded
  }

  /** The event alone decides where an accepted event leads, and recording is asked for on
      receipt and only then. */
  lemma EventDecidesTarget(state: PayinState, event: PayinEvent)
    requires Transition(state, event).To?
    ensures Transition(state, event).state == Target(event)
    ensures Transition(state, event).command == Some(LedgerRecord) ==> event == EventReceived
  {
    match state
    case PolicyWait | LedgerWait =>
    case _ =>
  }

  // ---- The invariant ----------------------------------------------------------

  /** The saga has been told that the money is there. */
  ghost predicate Heard(events: seq<SagaMessage>) {
    exists i :: 0 <= i < |events| && events[i].event == EventReceived
  }

  ghost predicate RecordsFit(events: seq<SagaMessage>, commands: seq<CommandMessage>, saga: Option<Saga>) {
    && (saga.Some? && saga.value.state == LedgerWait ==> Heard(events))
    && (forall i | 0 <= i < |commands| && IsRecord(commands[i]) :: Heard(events))
  }

  predicate Referenced(worker: Worker) {
    worker.Finished? && worker.result.status != ExecutionFailed ==> worker.result.reference != ""
  }

  /** Money that is received, recorded or announced has a provider reference. */
  ghost predicate ReferenceFits(p: Payin) {
    && (p.settlement == StatusReceived || p.status == Succeeded ==> p.reference != "")
    && (Heard(p.events) ==> p.reference != "" || p.settlement == StatusFailed)
    && Referenced(p.worker)
  }

  ghost predicate ReceiptInv(p: Payin) {
    Inv(p) && RecordsFit(p.events, p.commands, p.saga) && ReferenceFits(p)
  }

  lemma HeardLasts(events: seq<SagaMessage>, events': seq<SagaMessage>)
    requires events <= events'
    ensures Heard(events) ==> Heard(events')
  {
    if Heard(events) {
      var i :| 0 <= i < |events| && events[i].event == EventReceived;
      assert events'[i].event == EventReceived;
    }
  }

  lemma HeardOf(events: seq<SagaMessage>, m: SagaMessage)
    ensures Heard(events + [m]) <==> Heard(events) || m.event == EventReceived
  {
    HeardLasts(events, events + [m]);
    if m.event == EventReceived { assert (events + [m])[|events|].event == EventReceived; }
  }

  // ---- Saga steps -------------------------------------------------------------

  lemma DeliverFits(p: Payin, i: nat, now: int)
    requires ReceiptInv(p)
    ensures ReceiptInv(Perform(p, Deliver(i, now)))
  {
    PerformKeeps(p, Deliver(i, now));
    if i < |p.events| && p.saga.Some? && Transition(p.saga.value.state, p.events[i].event).To? {
      EventDecidesTarget(p.saga.value.state, p.events[i].event);
    }
  }

  lemma TimeoutFits(p: Payin, now: int)
    requires ReceiptInv(p)
    ensures ReceiptInv(Perform(p, Timeout(now)))
  {
    PerformKeeps(p, Timeout(now));
  }

  // ---- Results ----------------------------------------------------------------

  lemma EmitFits(p: Payin, id: MessageId, event: PayinEvent, reason: string)
    requires RecordsFit(p.events, p.commands, p.saga) && ReferenceFits(p)
    requires event == EventReceived ==> p.reference != "" || p.settlement == StatusFailed
    ensures var p' := Emit(p, id, event, reason); RecordsFit(p'.events, p'.commands, p'.saga) && ReferenceFits(p')
  {
    HeardOf(p.events, SagaMessage(id, event, reason));
  }

  /** A result that has a reference unless it is a failure. */
  lemma ResultFits(p: Payin, result: ExecutionResult)
    requires RecordsFit(p.events, p.commands, p.saga) && ReferenceFits(p)
    requires result.status != ExecutionFailed ==> result.reference != ""
    ensures var p' := ApplyResult(p, result, false).value; RecordsFit(p'.events, p'.commands, p'.saga) && ReferenceFits(p')
  {
    var settlement := NormalizeStatus(result.status);
    var status := PaymentStateFor(settlement);
    var updated := p.(reference := result.reference, settlement := settlement, status := status, timeline := p.timeline + [status]);
    EmitFits(updated, OfResult(settlement), EventFor(settlement), OrElse(result.message, result.code));
  }

  lemma RecordFits(p: Payin)
    requires RecordsFit(p.events, p.commands, p.saga) && ReferenceFits(p) && RecordPayin(p).Some?
    ensures var p' := RecordPayin(p).value; RecordsFit(p'.events, p'.commands, p'.saga) && ReferenceFits(p')
  {
    var completed := RecordPayin(p).value.(events := p.events, notices := p.notices);
    EmitFits(completed, OfRecord, EventSucceeded, "");
  }

  lemma HandleFits(p: Payin, message: CommandMessage, decision: Decision, id: nat)
    requires RecordsFit(p.events, p.commands, p.saga) && ReferenceFits(p)
    ensures var p' := HandleCommand(p, message, decision, id); RecordsFit(p'.events, p'.commands, p'.saga) && ReferenceFits(p')
  {
    match message.command
    case PolicyEvaluate =>
      HeardOf(p.events, SagaMessage(Generated(id), EventApproved, ""));
      if decision.Reject? { ResultFits(p, FailedResult("", decision.reason)); }
    case PayinExecute =>
    case LedgerRecord => if RecordPayin(p).Some? { RecordFits(p); }
    case PayinFail => ResultFits(p, FailedResult("", message.reason));
  }

  lemma WorkFits(p: Payin, decision: Decision, id: nat)
    requires ReceiptInv(p)
    ensures ReceiptInv(Perform(p, Work(decision, id)))
  {
    PerformKeeps(p, Work(decision, id));
    if p.worker == Idle && p.next < |p.commands| { HandleFits(p, p.commands[p.next], decision, id); }
  }

  lemma ExecutionFits(p: Payin, s: Step)
    requires ReceiptInv(p) && (s.Call? || s.Report? || s.Apply? || s.Crash?)
    ensures ReceiptInv(Perform(p, s))
  {
    PerformKeeps(p, s);
    if s.Apply? { ApplyFits(p, s.taken); }
  }

  lemma ApplyFits(p: Payin, taken: bool)
    requires RecordsFit(p.events, p.commands, p.saga) && ReferenceFits(p)
    ensures var p' := Perform(p, Apply(taken)); RecordsFit(p'.events, p'.commands, p'.saga) && ReferenceFits(p')
  {
    if p.worker.Finished? { ResultFits(p, p.worker.result); }
  }

  lemma NotifyFits(p: Payin, reference: string, reported: ProviderStatus)
    requires ReceiptInv(p)
    ensures ReceiptInv(Perform(p, Notify(reference, reported)))
  {
    PerformKeeps(p, Notify(reference, reported));
    if reference != "" && reference == p.reference { ReportFits(p, reported); }
  }

  lemma ReportFits(p: Payin, reported: ProviderStatus)
    requires RecordsFit(p.events, p.commands, p.saga) && ReferenceFits(p) && p.reference != ""
    ensures var p' := Webhook(p, reported); RecordsFit(p'.events, p'.commands, p'.saga) && ReferenceFits(p')
  {
    if Lifecycle(reported).Some? {
      var settlement := Lifecycle(reported).value;
      var status := if p.status == Succeeded then Succeeded else PaymentStateFor(settlement);
      var updated := p.(settlement := settlement, status := status, timeline := p.timeline + [status]);
      EmitFits(updated, OfDelivery(p.reference, settlement), EventFor(settlement), StatusText(reported));
    }
  }

  lemma StepFits(p: Payin, s: Step)
    requires ReceiptInv(p)
    ensures ReceiptInv(Perform(p, s))
  {
    match s
    case Deliver(i, now) => DeliverFits(p, i, now);
    case Timeout(now) => TimeoutFits(p, now);
    case Work(decision, id) => WorkFits(p, decision, id);
    case Notify(reference, reported) => NotifyFits(p, reference, reported);
    case _ => ExecutionFits(p, s);
  }

  lemma {:induction false} RunFits(p: Payin, steps: seq<Step>)
    requires ReceiptInv(p)
    ensures ReceiptInv(Run(p, steps))
    decreases |steps|
  {
    if steps != [] {
      StepFits(p, steps[0]);
      RunFits(Perform(p, steps[0]), steps[1..]);
    }
  }

  lemma ReachedFits(p0: Payin, steps: seq<Step>)
    requires Fresh(p0)
    ensures ReceiptInv(Run(p0, steps))
  {
    Reached(p0, []);
    RunFits(p0, steps);
  }

  // ---- Recording --------------------------------------------------------------

  /** The ledger is asked to record a pay-in only after the saga was told that the money is
      there, and then its reference is known or it has failed. */
  lemma RecordFollowsReceipt(p0: Payin, steps: seq<Step>, i: nat)
    requires Fresh(p0) && i < |Run(p0, steps).commands| && Run(p0, steps).commands[i].command == LedgerRecord
    ensures var p := Run(p0, steps); Heard(p.events) && (p.reference != "" || p.settlement == StatusFailed)
  {
    ReachedFits(p0, steps);
    assert IsRecord(Run(p0, steps).commands[i]);
  }

  /** The worker is about to take a payin.ledger.record. */
  predicate AtRecord(p: Payin) {
    p.worker == Idle && p.next < |p.commands| && IsRecord(p.commands[p.next])
  }

  lemma RecordEffect(p: Payin, decision: Decision, id: nat)
    requires Inv(p) && AtRecord(p)
    ensures var p' := Perform(p, Work(decision, id));
      if p.settlement == StatusReceived then p'.status == Succeeded && p'.journals == [PayinJournal] && p'.next == p.next + 1 else p' == p
  {
    RecordKeeps(p);
  }

  /** An issued payin.ledger.record is not always honoured: it commits iff the pay-in's
      settlement status is still received when it is worked, and otherwise changes nothing.
      A refused one is cured by a report that the provider has completed the pay-in, unless
      the pay-in has failed. */
  lemma RecordCommitsIff(p0: Payin, steps: seq<Step>, decision: Decision, id: nat)
    requires Fresh(p0) && AtRecord(Run(p0, steps))
    ensures var p := Run(p0, steps);
      var worked := Perform(p, Work(decision, id));
      var cured := Perform(Perform(p, Notify(p.reference, ReportsCompleted)), Work(decision, id));
      && (if p.settlement == StatusReceived then worked.status == Succeeded && worked.journals == [PayinJournal] && worked.next == p.next + 1 else worked == p)
      && (cured.next == p.next + 1 <==> p.settlement != StatusFailed)
  {
    ReachedFits(p0, steps);
    var p := Run(p0, steps);
    RecordEffect(p, decision, id);
    CureEffect(p, decision, id);
  }

  lemma CureEffect(p: Payin, decision: Decision, id: nat)
    requires ReceiptInv(p) && AtRecord(p)
    ensures Perform(Perform(p, Notify(p.reference, ReportsCompleted)), Work(decision, id)).next == p.next + 1 <==> p.settlement != StatusFailed
  {
    var told := Perform(p, Notify(p.reference, ReportsCompleted));
    PerformKeeps(p, Notify(p.reference, ReportsCompleted));
    NotifySettles(p, ReportsCompleted);
    RecordEffect(told, decision, id);
  }

  lemma NotifySettles(p: Payin, reported: ProviderStatus)
    ensures var p' := Perform(p, Notify(p.reference, reported));
      && p'.commands == p.commands && p'.next == p.next && p'.worker == p.worker && p'.journals == p.journals && p'.reference == p.reference
      && p'.settlement == (if p.reference == "" || p.settlement == StatusFailed || p.settlement == StatusRefunded || Lifecycle(reported).None? then p.settlement else Lifecycle(reported).value)
  {
    WebhookTouches(p, reported);
  }

  lemma WebhookTouches(p: Payin, reported: ProviderStatus)
    ensures var p' := Webhook(p, reported);
      p' == p.(settlement := p'.settlement, status := p'.status, timeline := p'.timeline, events := p'.events, notices := p'.notices)
  {}

  predicate Cures(s: Step, p: Payin) { s == Notify(p.reference, ReportsCompleted) && p.settlement != StatusFailed }

  ghost predicate Refused(p: Payin) { ReceiptInv(p) && AtRecord(p) && p.settlement != StatusReceived }

  lemma RefusedStays(p: Payin, s: Step)
    requires Refused(p) && !Cures(s, p)
    ensures var p' := Perform(p, s);
      Refused(p') && p'.next == p.next && p'.journals == p.journals && p'.reference == p.reference && (p.settlement == StatusFailed ==> p'.settlement == StatusFailed)
  {
    StepFits(p, s);
    match s
    case Work(decision, id) => RecordEffect(p, decision, id);
    case Notify(reference, reported) => NotifySettles(p, reported);
    case Deliver(i, now) => DeliverAppends(p, i, now);
    case _ =>
  }

  lemma DeliverAppends(p: Payin, i: nat, now: int)
    ensures var p' := Perform(p, Deliver(i, now));
      p.commands <= p'.commands && p' == p.(saga := p'.saga, commands := p'.commands)
  {}

  /** A refused record waits: until a completed report arrives, or for good once the pay-in
      has failed, nothing is recorded and no command is consumed. */
  lemma {:induction false} RefusedRecordWaits(p: Payin, steps: seq<Step>)
    requires Refused(p) && (p.settlement == StatusFailed || forall i | 0 <= i < |steps| :: steps[i] != Notify(p.reference, ReportsCompleted))
    ensures var p' := Run(p, steps); Refused(p') && p'.next == p.next && p'.journals == p.journals
    decreases |steps|
  {
    if steps != [] {
      RefusedStays(p, steps[0]);
      RefusedRecordWaits(Perform(p, steps[0]), steps[1..]);
    }
  }

  // ---- Provider reports -------------------------------------------------------

  /** A delivery changes a reachable pay-in iff it names its reference, reports anything but
      processing, says something new, and the pay-in has not failed. */
  lemma ReportChangesIff(p0: Payin, steps: seq<Step>, reference: string, reported: ProviderStatus)
    requires Fresh(p0)
    ensures var p := Run(p0, steps);
      Perform(p, Notify(reference, reported)) != p <==>
        && reference != "" && reference == p.reference && reported != ReportsProcessing
        && p.settlement != StatusFailed && Lifecycle(reported) != Some(p.settlement)
  {
    ReachedFits(p0, steps);
    NotifySettles(Run(p0, steps), reported);
  }

  predicate ReportsProgress(s: Step) { s.Notify? && s.reported == ReportsProcessing }

  function WithoutProgress(steps: seq<Step>): seq<Step> {
    if steps == [] then []
    else if ReportsProgress(steps[0]) then WithoutProgress(steps[1..])
    else [steps[0]] + WithoutProgress(steps[1..])
  }

  /** Reports that the provider is processing a pay-in can be left out of any run. */
  lemma {:induction false} ProgressReportsAreLost(p: Payin, steps: seq<Step>)
    ensures Run(p, steps) == Run(p, WithoutProgress(steps))
    decreases |steps|
  {
    if steps != [] {
      var p' := Perform(p, steps[0]);
      ProgressReportsAreLost(p', steps[1..]);
      if !ReportsProgress(steps[0]) {
        assert WithoutProgress(steps)[0] == steps[0] && WithoutProgress(steps)[1..] == WithoutProgress(steps[1..]);
      }
    }
  }

  lemma ApplyFixesStatus(p: Payin)
    requires p.worker.Finished?
    ensures var p' := Perform(p, Apply(false)); var settlement := NormalizeStatus(p.worker.result.status);
      p'.settlement == settlement && p'.status == PaymentStateFor(settlement) && p'.next == p.next + 1 && p.events <= p'.events
  {}

  /** A report that arrives between executing and applying is overwritten by the applied
      result, although the saga has already been told of it. */
  lemma LateResultOverwritesReport(p0: Payin, steps: seq<Step>, reported: ProviderStatus)
    requires Fresh(p0) && Run(p0, steps).worker.Finished? && Run(p0, steps).reference != ""
    ensures var p := Run(p0, steps);
      var told := Perform(p, Notify(p.reference, reported));
      var applied := Perform(told, Apply(false));
      && applied.settlement == NormalizeStatus(p.worker.result.status) && applied.status == PaymentStateFor(applied.settlement)
      && applied.next == p.next + 1 && (Heard(told.events) ==> Heard(applied.events))
  {
    var p := Run(p0, steps);
    var told := Perform(p, Notify(p.reference, reported));
    NotifySettles(p, reported);
    ApplyFixesStatus(told);
    HeardLasts(told.events, Perform(told, Apply(false)).events);
  }

  // ---- Why commands must not be consumed twice --------------------------------

  /** Applying any result leaves a pay-in not succeeded while its journal stays. */
  lemma ApplyingUndoesSuccess(p: Payin, result: ExecutionResult)
    ensures ApplyResult(p, result, false).Some?
    ensures ApplyResult(p, result, false).value.status != Succeeded
    ensures ApplyResult(p, result, false).value.journals == p.journals
  {}

  /** Were any payin.execute or payin.fail delivered to a recorded pay-in, past the inbox, it
      would take the payment out of succeeded and leave the journal behind. */
  lemma RedeliveryUndoesSuccess(p0: Payin, steps: seq<Step>, message: CommandMessage, decision: Decision, id: nat)
    requires Fresh(p0) && Run(p0, steps).status == Succeeded && (message.command == PayinExecute || message.command == PayinFail)
    ensures var again := HandleCommand(Run(p0, steps), message, decision, id);
      var after := if message.command == PayinFail then again else Perform(again, Apply(false));
      after.status != Succeeded && after.journals == [PayinJournal]
  {
    ReachedFits(p0, steps);
    var p := Run(p0, steps);
    if message.command == PayinFail {
      ApplyingUndoesSuccess(p, FailedResult("", message.reason));
    } else {
      var again := HandleCommand(p, message, decision, id);
      assert again == p.(worker := again.worker) && again.worker.Finished?;
      ApplyingUndoesSuccess(again, again.worker.result);
    }
  }
}
