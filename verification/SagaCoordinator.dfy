/** The payout saga coordinator as transactions on the database. */
module SagaCoordinator {
  import opened PaymentCore
  import opened PayoutSaga
  import opened PayoutProtocol
  import opened SagaTimeouts
  import opened Store

  method Enqueue(db: Database, p: Id, command: Command, reason: string, id: nat)
    requires db.Valid() && p in db.rows
    modifies db`rows, db`outbox
    ensures db.Valid() && db.rows == old(db.rows)[p := Send(old(db.rows[p]), Generated(id), Order(command), reason)]
  {
    db.InsertOutbox(p, OutboxEvent(Generated(id), Order(command), reason));
  }

  method UpdateAndCommand(db: Database, p: Id, next: SagaState, command: Option<Command>, timeout: int, failure: string, now: int, id: nat)
    requires db.Valid() && p in db.rows && db.rows[p].saga.Some?
    modifies db`rows, db`sagas, db`outbox
    ensures db.Valid() && db.rows == old(db.rows)[p := Advance(old(db.rows[p]), Move(next, command, timeout, failure), now, id)]
    ensures p in old(db.sagas) && db.sagas == old(db.sagas)[p := Moved(old(db.sagas)[p], Move(next, command, timeout, failure), now)]
  {
    assert db.Fits(p);
    var deadline := None;
    if timeout > 0 {
      deadline := Some(now + timeout);
    }
    db.PutSaga(p, Saga(next, deadline, if failure != "" then failure else db.sagas[p].failure));
    if command.Some? {
      Enqueue(db, p, command.value, failure, id);
    }
  }

  method StartSaga(db: Database, p: Id, now: int, id: nat)
    requires db.Valid() && p in db.rows
    modifies db`rows, db`sagas, db`outbox
    ensures db.Valid() && db.rows == old(db.rows)[p := Start(db.timeouts, old(db.rows[p]), now, id)]
  {
    assert db.Fits(p);
    if p !in db.sagas {
      db.PutSaga(p, Saga(AwaitingPolicy, Some(now + db.timeouts.policy), ""));
      Enqueue(db, p, PolicyEvaluate, "", id);
    }
  }

  /** PayoutSagaHandler and Handle: an event that is not for the saga is acknowledged, one
      that is invalid in its state is an error and changes nothing. */
  method Handle(db: Database, p: Id, event: SagaEvent, reason: string, now: int, id: nat) returns (ok: bool)
    requires db.Valid() && p in db.rows
    modifies db`rows, db`sagas, db`outbox
    ensures db.Valid() && db.rows == old(db.rows)[p := HandleEvent(db.timeouts, old(db.rows[p]), event, reason, now, id)]
    ensures ok <==> || event == FundsReturned || event == PayoutCreated
                    || (old(db.rows[p]).saga.Some? && Transition(db.timeouts, old(db.rows[p]).saga.value.state, event, reason).Some?)
  {
    assert db.Fits(p);
    ok := true;
    if event == FundsReturned {
      return;
    }
    if event == PayoutCreated {
      StartSaga(db, p, now, id);
      return;
    }
    if p !in db.sagas {
      return false;
    }
    var move := Transition(db.timeouts, db.sagas[p].state, event, reason);
    if move.None? {
      return false;
    }
    UpdateAndCommand(db, p, move.value.next, move.value.command, move.value.timeout, move.value.failure, now, id);
  }

  function ParseAction(action: string): Option<ReviewAction> {
    if action == "retry" then Some(RetryReview)
    else if action == "complete" then Some(CompleteReview)
    else if action == "fail" then Some(FailReview)
    else if action == "return" then Some(ReturnReview)
    else None
  }

  method ResolveManualReview(db: Database, p: Id, action: string, operator: string, note: string, now: int, id: nat) returns (ok: bool)
    requires db.Valid()
    modifies db`rows, db`sagas, db`outbox
    ensures db.Valid()
    ensures ok <==> && operator != "" && note != "" && ParseAction(action).Some?
                    && p in old(db.rows) && old(db.rows[p]).saga.Some? && old(db.rows[p]).saga.value.state == ManualReview
    ensures !ok ==> db.rows == old(db.rows)
    ensures ok ==> db.rows == old(db.rows)[p := ResolveReview(db.timeouts, old(db.rows[p]), ParseAction(action).value, operator, note, now, id)]
  {
    assert db.Fits(p);
    if operator == "" || note == "" || p !in db.sagas || db.sagas[p].state != ManualReview {
      return false;
    }
    var next, command, timeout := OnHold, None, db.timeouts.compliance;
    match action {
      case "retry" =>
      case "complete" => next, command, timeout := SettlingPayment, Some(PaymentSettle), db.timeouts.ledger;
      case "fail" => next, command, timeout := SagaFailed, Some(PaymentFailReserved), 0;
      case "return" => next, command, timeout := Returning, Some(LedgerRelease), db.timeouts.ledger;
      case _ => return false;
    }
    UpdateAndCommand(db, p, next, command, timeout, note, now, id);
    ok := true;
  }

  // ---- Timeouts ---------------------------------------------------------------

  type Sagas = map<Id, Saga>

  /** The deadlines that the timeout query looks at. */
  function DueOf(sagas: Sagas): Deadlines {
    map p | p in sagas && Expirable(sagas[p].state) && sagas[p].deadline.Some? :: sagas[p].deadline.value
  }

  /** The sagas after one call has moved the ones it claimed. */
  function Expired(t: Timeouts, sagas: Sagas, claimed: seq<Id>, now: int): Sagas {
    map p | p in sagas :: if p in claimed then Moved(sagas[p], TimeoutMove(t, sagas[p].state), now) else sagas[p]
  }

  /** Every claimed saga leaves with a later deadline or none, because timeouts are positive. */
  lemma ExpiryPostpones(t: Timeouts, sagas: Sagas, claimed: seq<Id>, now: int)
    requires t.Valid() && forall i | 0 <= i < |claimed| :: claimed[i] in OverdueSet(DueOf(sagas), now)
    ensures Postponed(DueOf(sagas), DueOf(Expired(t, sagas, claimed, now)), claimed, now)
  {
    var after := Expired(t, sagas, claimed, now);
    forall p | p in claimed
      ensures p !in DueOf(after) || DueOf(after)[p] > now
    {
      assert p in OverdueSet(DueOf(sagas), now);
    }
  }

  /** One Expire step per claimed saga, in claim order. */
  function ExpireAll(t: Timeouts, rows: map<Id, Row>, claimed: seq<Id>, now: int, id: nat): map<Id, Row> {
    if |claimed| == 0 then rows
    else
      var n := |claimed| - 1;
      var before := ExpireAll(t, rows, claimed[..n], now, id);
      if claimed[n] in before then before[claimed[n] := ExpireSaga(t, before[claimed[n]], now, id + n)] else before
  }

  /** The branches of ExpireOnce for one claimed saga. */
  method ExpireClaimed(db: Database, p: Id, now: int, id: nat)
    requires db.Valid() && p in db.rows && Overdue(db.rows[p].saga, now)
    modifies db`rows, db`sagas, db`outbox
    ensures db.Valid() && db.rows == old(db.rows)[p := ExpireSaga(db.timeouts, old(db.rows[p]), now, id)]
    ensures p in old(db.sagas)
    ensures db.sagas == old(db.sagas)[p := Moved(old(db.sagas)[p], TimeoutMove(db.timeouts, old(db.sagas)[p].state), now)]
  {
    assert db.Fits(p);
    var state := db.sagas[p].state;
    var next, command, timeout := SagaFailed, Some(PaymentFail), 0;
    if state == AwaitingSettlement {
      next, command, timeout := AwaitingSettlement, Some(SettlementExecute), db.timeouts.settlement;
    }
    if state == OnHold {
      next, command, timeout := ManualReview, None, 0;
    }
    if state == Returning {
      next, command, timeout := Returning, Some(LedgerRelease), db.timeouts.ledger;
    }
    if state == SettlingPayment {
      next, command, timeout := SettlingPayment, Some(PaymentSettle), db.timeouts.ledger;
    }
    UpdateAndCommand(db, p, next, command, timeout, Name(state) + " timeout", now, id);
  }

  lemma {:induction false} ExpireAllElsewhere(t: Timeouts, rows: map<Id, Row>, claimed: seq<Id>, now: int, id: nat, p: Id)
    requires p in rows && p !in claimed
    ensures p in ExpireAll(t, rows, claimed, now, id) && ExpireAll(t, rows, claimed, now, id)[p] == rows[p]
  {
    if |claimed| > 0 {
      ExpireAllElsewhere(t, rows, claimed[..|claimed| - 1], now, id, p);
    }
  }

  lemma ExpireAllStep(t: Timeouts, rows: map<Id, Row>, claimed: seq<Id>, i: nat, now: int, id: nat)
    requires i < |claimed| && claimed[i] in rows && claimed[i] !in claimed[..i]
    ensures var before := ExpireAll(t, rows, claimed[..i], now, id);
      ExpireAll(t, rows, claimed[..i + 1], now, id) == before[claimed[i] := ExpireSaga(t, rows[claimed[i]], now, id + i)]
  {
    assert claimed[..i + 1][..i] == claimed[..i];
    ExpireAllElsewhere(t, rows, claimed[..i], now, id, claimed[i]);
  }

  lemma ExpiredStep(t: Timeouts, sagas: Sagas, claimed: seq<Id>, i: nat, now: int)
    requires i < |claimed| && claimed[i] in sagas
    ensures Expired(t, sagas, claimed[..i + 1], now)
         == Expired(t, sagas, claimed[..i], now)[claimed[i] := Moved(sagas[claimed[i]], TimeoutMove(t, sagas[claimed[i]].state), now)]
  {
    assert claimed[..i + 1] == claimed[..i] + [claimed[i]];
  }

  /** A claimed saga that no earlier iteration has moved is still as it was claimed. */
  lemma ExpiredElsewhere(t: Timeouts, sagas: Sagas, claimed: seq<Id>, now: int, p: Id)
    requires p in sagas && p !in claimed
    ensures p in Expired(t, sagas, claimed, now) && Expired(t, sagas, claimed, now)[p] == sagas[p]
  {}

  /** One iteration of the loop over the claimed sagas. */
  method ExpireNext(db: Database, ghost rows: map<Id, Row>, ghost sagas: Sagas, claimed: seq<Id>, i: nat, now: int, id: nat)
    requires db.Valid() && i < |claimed| && claimed[i] !in claimed[..i] && claimed[i] in sagas && Overdue(Some(sagas[claimed[i]]), now)
    requires claimed[i] in rows && rows[claimed[i]].saga == Some(sagas[claimed[i]])
    requires db.rows == ExpireAll(db.timeouts, rows, claimed[..i], now, id)
    requires db.sagas == Expired(db.timeouts, sagas, claimed[..i], now)
    modifies db`rows, db`sagas, db`outbox
    ensures db.Valid()
    ensures db.rows == ExpireAll(db.timeouts, rows, claimed[..i + 1], now, id)
    ensures db.sagas == Expired(db.timeouts, sagas, claimed[..i + 1], now)
  {
    ExpireAllElsewhere(db.timeouts, rows, claimed[..i], now, id, claimed[i]);
    ExpiredElsewhere(db.timeouts, sagas, claimed[..i], now, claimed[i]);
    ExpireAllStep(db.timeouts, rows, claimed, i, now, id);
    ExpiredStep(db.timeouts, sagas, claimed, i, now);
    ExpireClaimed(db, claimed[i], now, id + i);
  }

  /** ExpireOnce: the overdue sagas with the earliest deadlines, up to the batch size, each
      take exactly their timeout step, and no other saga is touched. */
  method ExpireOnce(db: Database, now: int, batch: nat, id: nat) returns (claimed: seq<Id>)
    requires db.Valid()
    modifies db`rows, db`sagas, db`outbox
    ensures db.Valid() && Claims(DueOf(old(db.sagas)), now, batch, claimed)
    ensures db.rows == ExpireAll(db.timeouts, old(db.rows), claimed, now, id)
    ensures db.sagas == Expired(db.timeouts, old(db.sagas), claimed, now)
    ensures Postponed(DueOf(old(db.sagas)), DueOf(db.sagas), claimed, now)
  {
    claimed := Claim(DueOf(db.sagas), now, batch);
    ghost var rows, sagas := db.rows, db.sagas;
    forall i | 0 <= i < |claimed|
      ensures claimed[i] in sagas && Overdue(Some(sagas[claimed[i]]), now)
      ensures claimed[i] in rows && rows[claimed[i]].saga == Some(sagas[claimed[i]])
    {
      assert claimed[i] in OverdueSet(DueOf(sagas), now) && db.Fits(claimed[i]);
    }
    for i := 0 to |claimed|
      invariant db.Valid()
      invariant db.rows == ExpireAll(db.timeouts, rows, claimed[..i], now, id)
      invariant db.sagas == Expired(db.timeouts, sagas, claimed[..i], now)
    {
      ExpireNext(db, rows, sagas, claimed, i, now, id);
    }
    assert claimed[..|claimed|] == claimed;
    ExpiryPostpones(db.timeouts, sagas, claimed, now);
  }

  /** Calls that claim different sagas move each of them once. */
  lemma ExpiredTwice(t: Timeouts, sagas: Sagas, first: seq<Id>, second: seq<Id>, now: int)
    requires forall p | p in second :: p !in first
    ensures Expired(t, Expired(t, sagas, first, now), second, now) == Expired(t, sagas, first + second, now)
  {}

  /** TimeoutWorker: so many calls at one clock. Nothing is overdue afterwards iff they were
      enough for the overdue sagas; each claimed saga has taken exactly one timeout step, in
      the order of the deadlines, and no other saga has changed. */
  method TimeoutWorker(db: Database, now: int, batch: nat, calls: nat, id: nat) returns (rounds: seq<seq<Id>>)
    requires db.Valid() && batch > 0
    modifies db`rows, db`sagas, db`outbox
    ensures db.Valid() && |rounds| == calls
    ensures Drained(DueOf(old(db.sagas)), DueOf(db.sagas), now, batch, calls, Claimed(rounds, calls))
    ensures db.sagas == Expired(db.timeouts, old(db.sagas), Claimed(rounds, calls), now)
  {
    rounds := [];
    ghost var dues := [DueOf(db.sagas)];
    assert db.sagas == Expired(db.timeouts, db.sagas, [], now);
    for i := 0 to calls
      invariant db.Valid() && |rounds| == i && Rounds(dues, now, batch, rounds)
      invariant dues[0] == DueOf(old(db.sagas)) && dues[i] == DueOf(db.sagas)
      invariant db.sagas == Expired(db.timeouts, old(db.sagas), Claimed(rounds, i), now)
    {
      var claimed := ExpireOnce(db, now, batch, id);
      RoundsGrow(dues, now, batch, rounds, DueOf(db.sagas), claimed);
      ghost var longer := rounds + [claimed];
      RoundsPartition(dues + [DueOf(db.sagas)], now, batch, longer, i + 1);
      assert forall p | p in claimed :: p !in Claimed(rounds, i) by { ConcatDisjoint(Claimed(rounds, i), claimed); }
      ExpiredTwice(db.timeouts, old(db.sagas), Claimed(rounds, i), claimed, now);
      dues := dues + [DueOf(db.sagas)];
      rounds := rounds + [claimed];
    }
    RoundsDrain(dues, now, batch, rounds);
  }
}
