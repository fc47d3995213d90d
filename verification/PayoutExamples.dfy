/** Complete in-order runs of one payout that reach the situations in which the code does not
    do what its documentation says. */
module PayoutExamples {
  import opened PaymentCore
  import opened Ledger
  import opened PayoutSaga
  import opened Provider
  import opened PayoutProtocol
  import opened PayoutInvariant
  import opened PayoutTheorems
  import opened PayoutOrder
  import opened PayoutProvider
  import opened PayoutSubmissions

  // ---- Following a run --------------------------------------------------------

  function DoneBy(r: Row, done: set<nat>, s: Step): set<nat> { if s.Work? then Taken(r, done, s.i) else done }

  function DoneAfter(t: Timeouts, r: Row, done: set<nat>, steps: seq<Step>): set<nat>
    decreases |steps|
  {
    if steps == [] then done else DoneAfter(t, Perform(t, r, steps[0]), DoneBy(r, done, steps[0]), steps[1..])
  }

  predicate Allowed(r: Row, done: set<nat>, s: Step) {
    s.Work? ==> forall j | 0 <= j < |r.outbox| && j < s.i && r.outbox[j].body.Order? :: j in done
  }

  lemma {:induction false} Appends(t: Timeouts, r: Row, done: set<nat>, steps: seq<Step>, s: Step)
    requires InOrder(t, r, done, steps) && Allowed(Run(t, r, steps), DoneAfter(t, r, done, steps), s)
    ensures InOrder(t, r, done, steps + [s]) && Run(t, r, steps + [s]) == Perform(t, Run(t, r, steps), s)
    ensures DoneAfter(t, r, done, steps + [s]) == DoneBy(Run(t, r, steps), DoneAfter(t, r, done, steps), s)
    decreases |steps|
  {
    if steps == [] {
      assert [s][1..] == [];
    } else {
      assert (steps + [s])[1..] == steps[1..] + [s];
      Appends(t, Perform(t, r, steps[0]), DoneBy(r, done, steps[0]), steps[1..], s);
    }
  }

  /** The steps lead in order from a new payout to the state, and work the given commands. */
  ghost predicate Leads(t: Timeouts, steps: seq<Step>, r: Row, done: set<nat>) {
    Run(t, NewPayout(), steps) == r && InOrder(t, NewPayout(), {}, steps) && DoneAfter(t, NewPayout(), {}, steps) == done
  }

  lemma Next(t: Timeouts, steps: seq<Step>, r: Row, done: set<nat>, s: Step) returns (longer: seq<Step>)
    requires Leads(t, steps, r, done) && Allowed(r, done, s)
    ensures Leads(t, longer, Perform(t, r, s), DoneBy(r, done, s))
  {
    Appends(t, NewPayout(), {}, steps, s);
    longer := steps + [s];
  }

  // ---- The states on the way to the provider ----------------------------------

  const ROUTE := Route("quote", "provider-quote", 100, "USD")
  const ROUTED := ExecuteRequest("key", "provider-quote")

  function NewPayout(): Row { NewRow(100, "USD", "key", Some(ROUTE), 0) }

  function Started(t: Timeouts): Row {
    Send(NewPayout().(saga := Some(Saga(AwaitingPolicy, Some(t.policy), ""))), Generated(2), Order(PolicyEvaluate), "")
  }

  function Approved(t: Timeouts): Row { Send(Started(t), Generated(3), Event(PolicyApproved), "") }

  function Reserving(t: Timeouts): Row {
    Send(Approved(t).(saga := Some(Saga(AwaitingLedger, Some(t.ledger), ""))), Generated(4), Order(LedgerReserve), "")
  }

  function Reserved(t: Timeouts): Row {
    var posted := Reserving(t).(status := Processing, journals := [ProcessingJournal],
                                entries := Lines(ProcessingJournal, 100, "USD"), timeline := [Created, Processing]);
    Send(Send(posted, Generated(5), Event(FundsReserved), ""), Generated(6), Public(NoticeProcessing), "")
  }

  function Submitting(t: Timeouts): Row {
    Send(Reserved(t).(saga := Some(Saga(AwaitingSettlement, Some(t.settlement), ""))), Generated(7), Order(SettlementExecute), "")
  }

  function Replied(t: Timeouts, reply: ProviderReply): Row {
    Submitting(t).(payout := Some(Payout("", SubmissionPending, "key")), worker := Answered(Generated(7), reply), calls := [ROUTED])
  }

  lemma ToApproved(t: Timeouts) returns (steps: seq<Step>)
    requires t.Valid()
    ensures Leads(t, steps, Approved(t), {2})
  {
    steps := Next(t, [], NewPayout(), {}, Deliver(0, 0, 2));
    assert Perform(t, NewPayout(), Deliver(0, 0, 2)) == Started(t);
    steps := Next(t, steps, Started(t), {}, Work(2, Approve, 3));
    assert Perform(t, Started(t), Work(2, Approve, 3)) == Approved(t);
  }

  lemma ToReserved(t: Timeouts) returns (steps: seq<Step>)
    requires t.Valid()
    ensures Leads(t, steps, Reserved(t), {2, 4})
  {
    steps := ToApproved(t);
    steps := Next(t, steps, Approved(t), {2}, Deliver(3, 0, 4));
    assert Perform(t, Approved(t), Deliver(3, 0, 4)) == Reserving(t);
    steps := Next(t, steps, Reserving(t), {2}, Work(4, Approve, 5));
    ReservingWorks(t);
  }

  lemma ReservingWorks(t: Timeouts)
    ensures Perform(t, Reserving(t), Work(4, Approve, 5)) == Reserved(t)
  {}

  lemma CommandsSoFar(t: Timeouts, j: nat)
    requires j < |Submitting(t).outbox| && Submitting(t).outbox[j].body.Order?
    ensures j == 2 || j == 4 || j == 7
  {}

  lemma ToSubmitting(t: Timeouts) returns (steps: seq<Step>)
    requires t.Valid()
    ensures Leads(t, steps, Submitting(t), {2, 4})
  {
    steps := ToReserved(t);
    steps := Next(t, steps, Reserved(t), {2, 4}, Deliver(5, 0, 7));
    SettlementIsIssued(t);
  }

  lemma SettlementIsIssued(t: Timeouts)
    requires t.Valid()
    ensures Perform(t, Reserved(t), Deliver(5, 0, 7)) == Submitting(t)
  {}

  function Claimed(t: Timeouts): Row {
    Submitting(t).(payout := Some(Payout("", SubmissionPending, "key")), worker := Calling(Generated(7)))
  }

  lemma SettlementIsClaimed(t: Timeouts)
    ensures Perform(t, Submitting(t), Work(7, Approve, 8)) == Claimed(t)
    ensures Allowed(Submitting(t), {2, 4}, Work(7, Approve, 8)) && DoneBy(Submitting(t), {2, 4}, Work(7, Approve, 8)) == {2, 4, 7}
  {
    forall j | 0 <= j < 7 && Submitting(t).outbox[j].body.Order? ensures j in {2, 4} { CommandsSoFar(t, j); }
  }

  /** An in-order run up to the provider's reply, whatever it is. */
  lemma ToReplied(t: Timeouts, reply: ProviderReply) returns (steps: seq<Step>)
    requires t.Valid()
    ensures Leads(t, steps, Replied(t, reply), {2, 4, 7})
  {
    steps := ToSubmitting(t);
    SettlementIsClaimed(t);
    steps := Next(t, steps, Submitting(t), {2, 4}, Work(7, Approve, 8));
    steps := Next(t, steps, Claimed(t), {2, 4, 7}, Call(reply));
    assert Perform(t, Claimed(t), Call(reply)) == Replied(t, reply);
  }

  lemma NewPayoutIsFresh()
    ensures Fresh(NewPayout())
  {}

  // ---- Returned, with a payment still processing ------------------------------

  const REFUNDED := ExecutionResult("po_1", ExecutionFailed, "refunded", "")

  function Recorded(t: Timeouts): Row {
    Submitting(t).(payout := Some(Payout("po_1", SettlementRefunded, "key")), worker := Finished(Generated(7), REFUNDED), calls := [ROUTED])
  }

  function Refunded(t: Timeouts): Row {
    Send(Recorded(t).(worker := Idle, submissions := [Submission(Generated(7), "po_1", ExecutionFailed)]),
         ResultOf(Generated(7)), Event(ProviderReturned), "refunded")
  }

  function Releasing(t: Timeouts): Row {
    Send(Refunded(t).(saga := Some(Saga(Returning, Some(t.ledger), "refunded"))), Generated(9), Order(LedgerRelease), "refunded")
  }

  function Released(t: Timeouts): Row {
    Send(Releasing(t).(journals := [ProcessingJournal, ReleasedJournal],
                       entries := Lines(ProcessingJournal, 100, "USD") + Lines(ReleasedJournal, 100, "USD"),
                       timeline := [Created, Processing, Processing]), Generated(10), Event(FundsReleased), "refunded")
  }

  lemma RefundedEvent()
    ensures ResultEvent(REFUNDED) == Some(ProviderReturned) && ResultReason(REFUNDED) == "refunded"
  {}

  lemma RefundedStatus()
    ensures ParseStatus(PersistedStatus(REFUNDED)) == Some(SettlementRefunded)
  {
    assert TrimSpace("refunded") == "refunded";
  }

  lemma RefundIsRecorded(t: Timeouts)
    ensures Perform(t, Replied(t, Answer(REFUNDED)), Record) == Recorded(t)
  {
    RefundedStatus();
  }

  lemma NoOutcomeYet(t: Timeouts)
    ensures !HasId(Submitting(t).outbox, ResultOf(Generated(7)))
  {}

  lemma RefundIsSent(t: Timeouts, r: Row)
    requires r.worker == Finished(Generated(7), REFUNDED) && r.submissions == [] && !HasId(r.outbox, ResultOf(Generated(7)))
    ensures Perform(t, r, Apply(false))
         == Send(r.(worker := Idle, submissions := [Submission(Generated(7), "po_1", ExecutionFailed)]),
                 ResultOf(Generated(7)), Event(ProviderReturned), "refunded")
  {
    RefundedEvent();
  }

  lemma RefundIsApplied(t: Timeouts)
    ensures Perform(t, Recorded(t), Apply(false)) == Refunded(t)
  {
    NoOutcomeYet(t);
    var r := Recorded(t);
    assert r.outbox == Submitting(t).outbox;
    RefundIsSent(t, r);
  }

  lemma ToRefunded(t: Timeouts) returns (steps: seq<Step>)
    requires t.Valid()
    ensures Leads(t, steps, Refunded(t), {2, 4, 7})
  {
    steps := ToReplied(t, Answer(REFUNDED));
    steps := Next(t, steps, Replied(t, Answer(REFUNDED)), {2, 4, 7}, Record);
    RefundIsRecorded(t);
    steps := Next(t, steps, Recorded(t), {2, 4, 7}, Apply(false));
    RefundIsApplied(t);
  }

  lemma ReleaseIsIssued(t: Timeouts)
    requires t.Valid()
    ensures Perform(t, Refunded(t), Deliver(8, 0, 9)) == Releasing(t)
  {}

  lemma ReleaseIsPosted(t: Timeouts)
    ensures Perform(t, Releasing(t), Work(9, Approve, 10)) == Released(t)
  {}

  lemma ReleaseIsNext(t: Timeouts)
    ensures Allowed(Releasing(t), {2, 4, 7}, Work(9, Approve, 10)) && DoneBy(Releasing(t), {2, 4, 7}, Work(9, Approve, 10)) == {2, 4, 7, 9}
  {
    forall j | 0 <= j < 9 && Releasing(t).outbox[j].body.Order? ensures j in {2, 4, 7} {
      if j < 8 { CommandsSoFar(t, j); }
    }
  }

  lemma ToReleased(t: Timeouts) returns (steps: seq<Step>)
    requires t.Valid()
    ensures Leads(t, steps, Released(t), {2, 4, 7, 9})
  {
    steps := ToRefunded(t);
    steps := Next(t, steps, Refunded(t), {2, 4, 7}, Deliver(8, 0, 9));
    ReleaseIsIssued(t);
    ReleaseIsNext(t);
    steps := Next(t, steps, Releasing(t), {2, 4, 7}, Work(9, Approve, 10));
    ReleaseIsPosted(t);
  }

  /** An in-order run whose saga ends in `returned` while its payment is still processing,
      where the documentation says that the payment is failed. */
  lemma ReturnedWhileProcessing(t: Timeouts) returns (r0: Row, steps: seq<Step>)
    requires t.Valid()
    ensures Fresh(r0) && InOrder(t, r0, {}, steps)
    ensures var r := Run(t, r0, steps); r.saga.Some? && r.saga.value.state == Returned && r.status == Processing
  {
    r0 := NewPayout();
    NewPayoutIsFresh();
    steps := ToReleased(t);
    steps := Next(t, steps, Released(t), {2, 4, 7, 9}, Deliver(10, 0, 11));
    ReturnIsFinal(t);
  }

  lemma ReturnIsFinal(t: Timeouts)
    ensures var r := Perform(t, Released(t), Deliver(10, 0, 11)); r.saga.Some? && r.saga.value.state == Returned && r.status == Processing
  {
    assert Released(t).outbox[10].body == Event(FundsReleased);
  }

  // ---- A retried settlement.execute -------------------------------------------

  const PENDING := ExecutionResult("po_1", ExecutionPending, "", "")

  /** A pending answer has been applied. */
  function Awaiting(t: Timeouts): Row {
    Submitting(t).(payout := Some(Payout("po_1", SettlementProcessing, "key")), calls := [ROUTED],
                   submissions := [Submission(Generated(7), "po_1", ExecutionPending)])
  }

  /** The settlement timeout has issued the command again. */
  function Reissued(t: Timeouts): Row {
    var failure := Name(AwaitingSettlement) + " timeout";
    Send(Awaiting(t).(saga := Some(Saga(AwaitingSettlement, Some(t.settlement + t.settlement), failure))),
         Generated(8), Order(SettlementExecute), failure)
  }

  function Noted(t: Timeouts): Row {
    Submitting(t).(payout := Some(Payout("po_1", SettlementProcessing, "key")), worker := Finished(Generated(7), PENDING), calls := [ROUTED])
  }

  lemma PendingIsRecorded(t: Timeouts)
    ensures Perform(t, Replied(t, Answer(PENDING)), Record) == Noted(t)
  {}

  lemma PendingIsApplied(t: Timeouts)
    ensures Perform(t, Noted(t), Apply(false)) == Awaiting(t)
  {}

  lemma ToAwaiting(t: Timeouts) returns (steps: seq<Step>)
    requires t.Valid()
    ensures Leads(t, steps, Awaiting(t), {2, 4, 7})
  {
    steps := ToReplied(t, Answer(PENDING));
    steps := Next(t, steps, Replied(t, Answer(PENDING)), {2, 4, 7}, Record);
    PendingIsRecorded(t);
    steps := Next(t, steps, Noted(t), {2, 4, 7}, Apply(false));
    PendingIsApplied(t);
  }

  lemma TimeoutReissues(t: Timeouts)
    requires t.Valid()
    ensures Perform(t, Awaiting(t), Expire(t.settlement, 8)) == Reissued(t)
  {}

  lemma RetryIsAnswered(t: Timeouts)
    ensures Perform(t, Reissued(t), Work(8, Approve, 9)) == Retried(t)
  {}

  /** The worker answers the repeated command from the stored row. */
  function Retried(t: Timeouts): Row { Reissued(t).(worker := Finished(Generated(8), PENDING)) }

  lemma RetryIsNext(t: Timeouts)
    ensures Allowed(Reissued(t), {2, 4, 7}, Work(8, Approve, 9))
  {
    forall j | 0 <= j < 8 && Reissued(t).outbox[j].body.Order? ensures j in {2, 4, 7} { CommandsSoFar(t, j); }
  }

  lemma ToRetried(t: Timeouts) returns (steps: seq<Step>)
    requires t.Valid()
    ensures Run(t, NewPayout(), steps) == Retried(t) && InOrder(t, NewPayout(), {}, steps)
  {
    steps := ToAwaiting(t);
    steps := Next(t, steps, Awaiting(t), {2, 4, 7}, Expire(t.settlement, 8));
    TimeoutReissues(t);
    RetryIsNext(t);
    steps := Next(t, steps, Reissued(t), {2, 4, 7}, Work(8, Approve, 9));
    RetryIsAnswered(t);
  }

  lemma RetryIsNew(t: Timeouts)
    ensures HasId(Retried(t).outbox, Generated(8)) && !HasSubmission(Retried(t).submissions, Generated(8)) && ReferenceRecorded(Retried(t))
  {
    assert Retried(t).outbox[8].id == Generated(8) && Retried(t).outbox[8] in Retried(t).outbox;
    assert Retried(t).submissions[0].reference == "po_1" && Retried(t).submissions[0] in Retried(t).submissions;
  }

  lemma NewResultIsDropped(t: Timeouts, r0: Row, steps: seq<Step>, r: Row)
    requires t.Valid() && Fresh(r0) && Run(t, r0, steps) == r
    requires r.worker.Finished? && !HasSubmission(r.submissions, r.worker.command) && ReferenceRecorded(r)
    ensures Perform(t, r, Apply(false)) == r.(worker := Idle)
  {
    RetriedExecuteCommitsIff(t, r0, steps, false);
  }

  /** An in-order run in which a settlement.execute issued by the timeout gets its answer, and
      applying it writes nothing. */
  lemma RetryCommitsNothing(t: Timeouts) returns (r0: Row, steps: seq<Step>)
    requires t.Valid()
    ensures Fresh(r0) && InOrder(t, r0, {}, steps)
    ensures var r := Run(t, r0, steps);
      && r.worker.Finished? && HasId(r.outbox, r.worker.command) && !HasSubmission(r.submissions, r.worker.command)
      && Perform(t, r, Apply(false)) == r.(worker := Idle)
  {
    r0 := NewPayout();
    NewPayoutIsFresh();
    steps := ToRetried(t);
    RetryIsNew(t);
    NewResultIsDropped(t, r0, steps, Retried(t));
  }

  // ---- Lost responses ---------------------------------------------------------

  /** An in-order run that loses a response to a crash, whatever the response was. */
  lemma ResponseIsLost(t: Timeouts, reply: ProviderReply) returns (r0: Row, steps: seq<Step>)
    requires t.Valid()
    ensures Fresh(r0) && InOrder(t, r0, {}, steps)
    ensures Stranded(Run(t, r0, steps)) && |Run(t, r0, steps).calls| == 1
  {
    r0 := NewPayout();
    NewPayoutIsFresh();
    steps := ToReplied(t, reply);
    steps := Next(t, steps, Replied(t, reply), {2, 4, 7}, Crash);
  }

  const UNTRIMMED := ExecutionResult("po_1", ExecutionFailed, " refunded", "")

  lemma UntrimmedExample()
    ensures UNTRIMMED.Valid() && Untrimmed(UNTRIMMED)
  {
    assert " refunded"[1..] == "refunded";
    assert TrimSpace("refunded") == "refunded";
  }

  /** An in-order run in which an answer with an untrimmed code is lost in the same way. */
  lemma UntrimmedAnswerIsLost(t: Timeouts) returns (r0: Row, steps: seq<Step>)
    requires t.Valid()
    ensures Fresh(r0) && InOrder(t, r0, {}, steps)
    ensures Stranded(Run(t, r0, steps)) && |Run(t, r0, steps).calls| == 1
  {
    r0 := NewPayout();
    NewPayoutIsFresh();
    steps := ToReplied(t, Answer(UNTRIMMED));
    UntrimmedExample();
    Reached(t, r0, steps);
    UntrimmedAnswerStrands(t, Replied(t, Answer(UNTRIMMED)), []);
    steps := Next(t, steps, Replied(t, Answer(UNTRIMMED)), {2, 4, 7}, Record);
  }
}
