/** Provider deliveries about payouts, as transactions on the database. */
module WebhookService {
  import opened PaymentCore
  import opened Ledger
  import opened PayoutSaga
  import opened PayoutProtocol
  import opened Store
  import opened LedgerService

  method EnqueueSagaResult(db: Database, p: Id, svix: string, status: SettlementStatus)
    requires db.Valid() && p in db.rows
    modifies db`rows, db`outbox
    ensures db.Valid()
    ensures db.rows == old(db.rows)[p := SendSagaResult(old(db.rows[p]), svix, status, old(db.Clash(p, FromDelivery(svix))))]
  {
    assert db.Fits(p);
    if p !in db.sagas {
      return;
    }
    var event, reason := ProviderFailed, "failed";
    if status == SettlementCompleted {
      event, reason := ProviderCompleted, "";
    } else if status == SettlementRefunded {
      event, reason := ProviderReturned, "refunded";
    } else if status == SettlementOnHold {
      event, reason := ProviderHeld, "settlement on hold";
    }
    db.InsertOutboxOnce(p, OutboxEvent(FromDelivery(svix), Event(event), reason));
  }

  /** completed to refunded: the status, the return journal and the notice commit together,
      or the whole delivery rolls back. */
  method ApplyReturn(db: Database, p: Id, svix: string) returns (ok: bool)
    requires db.Valid() && p in db.rows && svix != "" && db.rows[p].payout.Some? && db.rows[p].payout.value.reference != ""
    requires db.rows[p].payout.value.status == SettlementCompleted
    modifies db`rows, db`payouts, db`journals, db`entries, db`timeline, db`returned, db`outbox
    ensures db.Valid()
    ensures db.rows == old(db.rows)[p := Webhook(old(db.rows[p]), svix, SettlementRefunded, old(db.Clash(p, FromDelivery(svix))))]
    ensures ok <==> RecordReturn(old(db.rows[p]), svix).Posted?
  {
    assert db.Fits(p);
    var before := db.payouts[p];
    db.PutPayout(p, before.(status := SettlementRefunded));
    ok := ReturnFunds(db, p, svix);
    if !ok {
      db.PutPayout(p, before);
      return;
    }
    db.InsertOutboxOnce(p, OutboxEvent(FromDelivery(svix), Public(NoticeReturned), "provider returned funds after completed payout"));
  }

  method ApplyStatus(db: Database, p: Id, svix: string, status: SettlementStatus)
    requires db.Valid() && p in db.rows && svix != "" && Rank(status) > 0 && db.rows[p].payout.Some? && db.rows[p].payout.value.reference != ""
    requires CanAdvance(db.rows[p].payout.value.status, status) && db.rows[p].payout.value.status != SettlementCompleted
    modifies db`rows, db`payouts, db`outbox
    ensures db.Valid()
    ensures db.rows == old(db.rows)[p := Webhook(old(db.rows[p]), svix, status, old(db.Clash(p, FromDelivery(svix))))]
  {
    assert db.Fits(p);
    db.PutPayout(p, db.payouts[p].(status := status));
    if Terminal(status) || status == SettlementOnHold {
      EnqueueSagaResult(db, p, svix, status);
    }
  }

  /** Process for a delivery about one payout. */
  method ApplyDelivery(db: Database, p: Id, svix: string, status: SettlementStatus)
    requires db.Valid() && p in db.rows
    modifies db`rows, db`payouts, db`journals, db`entries, db`timeline, db`returned, db`outbox
    ensures db.Valid()
    ensures db.rows == old(db.rows)[p := Webhook(old(db.rows[p]), svix, status, old(db.Clash(p, FromDelivery(svix))))]
  {
    assert db.Fits(p);
    if svix == "" || Rank(status) == 0 || p !in db.payouts || db.payouts[p].reference == "" {
      return;
    }
    var current := db.payouts[p].status;
    if !CanAdvance(current, status) {
      if current == status && Terminal(status) {
        EnqueueSagaResult(db, p, svix, status);
      }
      return;
    }
    if current == SettlementCompleted {
      var _ := ApplyReturn(db, p, svix);
    } else {
      ApplyStatus(db, p, svix, status);
    }
  }

  /** Process: a delivery that names no known payout is retained and changes nothing. */
  method Process(db: Database, svix: string, reference: string, status: SettlementStatus) returns (target: Option<Id>)
    requires db.Valid()
    modifies db`rows, db`payouts, db`journals, db`entries, db`timeline, db`returned, db`outbox
    ensures db.Valid()
    ensures target.Some? ==> target.value in old(db.rows) && old(db.rows[target.value]).payout.Some? && old(db.rows[target.value]).payout.value.reference == reference != ""
    ensures target.None? ==> reference == "" || forall p | p in old(db.rows) && old(db.rows)[p].payout.Some? :: old(db.rows)[p].payout.value.reference != reference
    ensures db.rows == if target.None? then old(db.rows)
      else old(db.rows)[target.value := Webhook(old(db.rows[target.value]), svix, status, old(db.Clash(target.value, FromDelivery(svix))))]
  {
    if reference == "" {
      return None;
    }
    if p :| p in db.payouts && db.payouts[p].reference == reference {
      assert db.Fits(p);
      ApplyDelivery(db, p, svix, status);
      target := Some(p);
    } else {
      target := None;
      forall p | p in db.rows && db.rows[p].payout.Some? ensures db.rows[p].payout.value.reference != reference { assert db.Fits(p); }
    }
  }
}
