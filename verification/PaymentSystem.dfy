/** The services driving one database: every run of the running system is a run of the
    protocol, so whatever holds of the protocol holds of the tables. */
module PaymentSystem {
  import opened PaymentCore
  import opened Ledger
  import opened PayoutSaga
  import opened Provider
  import opened PayoutProtocol
  import opened PayoutInvariant
  import opened PaymentWorld
  import opened WorldTheorems
  import opened Store
  import SagaCoordinator
  import CommandWorker
  import WebhookService
  import PaymentService
  import PayinProtocol
  import PayinService

  /** The same transaction, up to whether the database found an outbox id already in use. */
  predicate SameStep(s: Step, done: Step) {
    match s
    case Apply(_) => done.Apply?
    case Notify(svix, status, _) => done.Notify? && done.svix == svix && done.status == status
    case _ => done == s
  }

  /** One saga, worker, provider or webhook transaction on payment p. */
  method Perform(db: Database, p: Id, s: Step) returns (done: Step)
    requires db.Valid() && p in db.rows
    modifies db`rows, db`payments, db`sagas, db`payouts, db`journals, db`entries, db`timeline, db`outbox, db`returned, db`submissions, db`workers, db`calls
    ensures db.Valid() && SameStep(s, done)
    ensures db.rows == old(db.rows)[p := PayoutProtocol.Perform(db.timeouts, old(db.rows[p]), done)]
  {
    assert db.Fits(p);
    done := s;
    match s {
      case Deliver(i, now, id) =>
        var messages := RowsOf(db.outbox, p);
        if i < |messages| && messages[i].body.Event? {
          var _ := SagaCoordinator.Handle(db, p, messages[i].body.event, messages[i].reason, now, id);
        }
      case Work(i, decision, id) =>
        var messages := RowsOf(db.outbox, p);
        if i < |messages| && messages[i].body.Order? {
          var _ := CommandWorker.Handle(db, p, messages[i].id, messages[i].body.command, messages[i].reason, decision, id);
        }
      case Expire(now, id) => ExpireOne(db, p, now, id);
      case Review(action, operator, note, now, id) => ReviewOne(db, p, action, operator, note, now, id);
      case Call(reply) => CommandWorker.Submit(db, p, reply);
      case Record => CommandWorker.RecordResponse(db, p);
      case Apply(_) => done := ApplyOne(db, p);
      case Crash => CommandWorker.RestartWorker(db, p);
      case Notify(svix, status, _) =>
        done := Notify(svix, status, db.Clash(p, FromDelivery(svix)));
        WebhookService.ApplyDelivery(db, p, svix, status);
    }
  }

  method ExpireOne(db: Database, p: Id, now: int, id: nat)
    requires db.Valid() && p in db.rows
    modifies db`rows, db`sagas, db`outbox
    ensures db.Valid() && db.rows == old(db.rows)[p := ExpireSaga(db.timeouts, old(db.rows[p]), now, id)]
  {
    assert db.Fits(p);
    if p in db.sagas && Overdue(Some(db.sagas[p]), now) {
      SagaCoordinator.ExpireClaimed(db, p, now, id);
    }
  }

  method ReviewOne(db: Database, p: Id, action: ReviewAction, operator: string, note: string, now: int, id: nat)
    requires db.Valid() && p in db.rows
    modifies db`rows, db`sagas, db`outbox
    ensures db.Valid() && db.rows == old(db.rows)[p := ResolveReview(db.timeouts, old(db.rows[p]), action, operator, note, now, id)]
  {
    var text := match action case RetryReview => "retry" case CompleteReview => "complete" case FailReview => "fail" case ReturnReview => "return";
    assert SagaCoordinator.ParseAction(text) == Some(action);
    var _ := SagaCoordinator.ResolveManualReview(db, p, text, operator, note, now, id);
  }

  method ApplyOne(db: Database, p: Id) returns (done: Step)
    requires db.Valid() && p in db.rows
    modifies db`rows, db`workers, db`submissions, db`outbox
    ensures db.Valid() && done.Apply?
    ensures db.rows == old(db.rows)[p := ApplyResult(old(db.rows[p]), done.clash)]
  {
    assert db.Fits(p);
    done := Apply(p in db.workers && db.workers[p].Finished? && db.Clash(p, ResultOf(db.workers[p].command)));
    CommandWorker.ApplyOutcome(db, p);
  }

  predicate SameWorldStep(s: WorldStep, done: WorldStep) {
    if s.PaymentStep? then done.PaymentStep? && done.p == s.p && SameStep(s.step, done.step) else done == s
  }

  /** Quotes, payments, refunds and pay-ins come into being. */
  method Create(db: Database, s: WorldStep)
    requires db.Valid() && !s.PaymentStep? && !s.PayinStep?
    modifies db
    ensures db.Valid() && db.Snapshot() == StepWorld(db.timeouts, old(db.Snapshot()), s)
  {
    match s {
      case QuoteStep(request, reply, now, id) =>
        var _ := PaymentService.MakeQuote(db, request, reply, now, id);
      case AcceptStep(request, quote, now, p, seed) =>
        if request.Valid() {
          var _ := PaymentService.Accept(db, request, quote, now, p, seed);
        }
      case RefundStep(request, now, p, seed) =>
        var _ := PaymentService.MakeRefund(db, request, now, p, seed);
      case OpenStep(p, amount, currency, key, providerQuote) =>
        var _ := PayinService.Open(db, p, amount, currency, key, providerQuote);
    }
  }

  method TakeIfKnown(db: Database, p: Id, s: PayinProtocol.Step)
    requires db.Valid()
    modifies db`payinRows, db`payins, db`journals, db`entries, db`timeline, db`payinSagas, db`payinEvents, db`payinCommands, db`payinNotices, db`payinCursors, db`payinWorkers
    ensures db.Valid()
    ensures db.payinRows == if p in old(db.payinRows) then old(db.payinRows)[p := PayinProtocol.Perform(old(db.payinRows[p]), Settled(old(db.payinRows), p, s))]
                            else old(db.payinRows)
  {
    assert db.PayinFits(p);
    if p in db.payins {
      PayinService.Take(db, p, s);
    }
  }

  method PerformIfKnown(db: Database, p: Id, s: Step) returns (done: Step)
    requires db.Valid()
    modifies db`rows, db`payments, db`sagas, db`payouts, db`journals, db`entries, db`timeline, db`outbox, db`returned, db`submissions, db`workers, db`calls
    ensures db.Valid() && SameStep(s, done)
    ensures db.rows == if p in old(db.rows) then old(db.rows)[p := PayoutProtocol.Perform(db.timeouts, old(db.rows[p]), done)] else old(db.rows)
  {
    assert db.Fits(p);
    done := s;
    if p in db.payments {
      done := Perform(db, p, s);
    }
  }

  /** A transaction on a pay-in; an unknown one is not touched. */
  method ExecutePayin(db: Database, s: WorldStep)
    requires db.Valid() && s.PayinStep?
    modifies db
    ensures db.Valid() && db.Snapshot() == StepWorld(db.timeouts, old(db.Snapshot()), s)
  {
    TakeIfKnown(db, s.p, s.payinStep);
  }

  /** A transaction on a payout; an unknown one is not touched. */
  method ExecutePayout(db: Database, s: WorldStep) returns (done: WorldStep)
    requires db.Valid() && s.PaymentStep?
    modifies db
    ensures db.Valid() && SameWorldStep(s, done) && db.Snapshot() == StepWorld(db.timeouts, old(db.Snapshot()), done)
  {
    var taken := PerformIfKnown(db, s.p, s.step);
    done := PaymentStep(s.p, taken);
  }

  /** One transaction of any service. */
  method Execute(db: Database, s: WorldStep) returns (done: WorldStep)
    requires db.Valid()
    modifies db
    ensures db.Valid() && SameWorldStep(s, done) && db.Snapshot() == StepWorld(db.timeouts, old(db.Snapshot()), done)
  {
    done := s;
    match s {
      case PaymentStep(_, _) => done := ExecutePayout(db, s);
      case PayinStep(_, _) => ExecutePayin(db, s);
      case _ => Create(db, s);
    }
  }

  lemma {:induction false} RunWorldAppends(t: Timeouts, w: World, steps: seq<WorldStep>, s: WorldStep)
    ensures RunWorld(t, w, steps + [s]) == StepWorld(t, RunWorld(t, w, steps), s)
    decreases |steps|
  {
    if steps == [] {
      assert [s][1..] == [];
    } else {
      assert (steps + [s])[1..] == steps[1..] + [s];
      RunWorldAppends(t, StepWorld(t, w, steps[0]), steps[1..], s);
    }
  }

  /** Any sequence of transactions on a new database: the tables end up as a run of the
      protocol leaves them, and the protocol's invariant and the balanced books hold. */
  method RunAll(timeouts: Timeouts, steps: seq<WorldStep>) returns (db: Database, done: seq<WorldStep>)
    requires timeouts.Valid()
    ensures fresh(db) && db.Valid() && db.timeouts == timeouts
    ensures |done| == |steps| && forall i | 0 <= i < |steps| :: SameWorldStep(steps[i], done[i])
    ensures db.Snapshot() == RunWorld(timeouts, EMPTY, done) && WorldInv(db.Snapshot())
  {
    db := new Database(timeouts);
    EmptyInv();
    done := [];
    for i := 0 to |steps|
      invariant fresh(db) && db.Valid() && db.timeouts == timeouts
      invariant |done| == i && forall j | 0 <= j < i :: SameWorldStep(steps[j], done[j])
      invariant db.Snapshot() == RunWorld(timeouts, EMPTY, done) && WorldInv(db.Snapshot())
    {
      ghost var before := db.Snapshot();
      var taken := Execute(db, steps[i]);
      StepWorldKeeps(timeouts, before, taken);
      RunWorldAppends(timeouts, EMPTY, done, taken);
      done := done + [taken];
    }
  }
}
