/** The database: one mutable table per SQL table, the foreign keys that tie them to the
    payments, and the row-level writes that transactions are made of. */
module Store {
  import opened PaymentCore
  import opened Ledger
  import opened PayoutSaga
  import opened Provider
  import opened PayoutProtocol
  import opened PaymentWorld
  import PayinProtocol

  /** payments, with the terms of the quote it is bound to */
  datatype PaymentRecord = PaymentRecord(amount: int, currency: string, key: string, route: Option<Route>, status: PaymentStatus)

  /** payments and payins of one pay-in, with the terms of the quote it is bound to */
  datatype PayinRecord = PayinRecord(
    amount: int, currency: string, key: string, providerQuote: string,
    status: PaymentStatus, settlement: PayinProtocol.PayinStatus, reference: string)

  function Find<T>(table: map<Id, T>, p: Id): Option<T> {
    if p in table then Some(table[p]) else None
  }

  /** The lines of a table without their payment column. */
  function Strip(table: seq<(Id, Entry)>): seq<Entry> {
    if |table| == 0 then [] else Strip(table[..|table| - 1]) + [table[|table| - 1].1]
  }

  /** What the two accounts hold together. */
  function Total(table: seq<(Id, Entry)>, currency: string): int {
    Balance(Strip(table), CashOperating, currency) + Balance(Strip(table), SettlementPayable, currency)
  }

  lemma TotalInsert(table: seq<(Id, Entry)>, p: Id, e: Entry, currency: string)
    ensures Total(table + [(p, e)], currency) == Total(table, currency) + if e.currency == currency then Signed(e) else 0
  {
    var longer := table + [(p, e)];
    assert longer[..|table|] == table;
    assert Strip(longer)[..|Strip(table)|] == Strip(table);
  }

  class Database {
    const timeouts: Timeouts

    var payments: map<Id, PaymentRecord>
    var identities: map<Id, Identity>
    var paymentByKey: map<string, Id>
    var quotes: map<string, Quote>
    var quoteByKey: map<(string, string), string>
    var refunds: seq<Refund>
    var refundByKey: map<(string, string), Refund>

    var sagas: map<Id, Saga>
    var payouts: map<Id, Payout>
    var journals: seq<(Id, JournalKind)>
    var entries: seq<(Id, Entry)>
    var timeline: seq<(Id, PaymentStatus)>
    var outbox: seq<(Id, OutboxEvent)>
    var returned: seq<(Id, Return)>
    var submissions: map<Id, seq<Submission>>

    // The command worker's memory and the calls it has made.
    var workers: map<Id, Worker>
    var calls: seq<(Id, ExecuteRequest)>

    // Pay-ins share the journals, the entries and the timeline with payouts. The cursors
    // are how far the inbox has come with each pay-in's commands.
    var payins: map<Id, PayinRecord>
    var payinSagas: map<Id, PayinProtocol.Saga>
    var payinEvents: seq<(Id, PayinProtocol.SagaMessage)>
    var payinCommands: seq<(Id, PayinProtocol.CommandMessage)>
    var payinNotices: seq<(Id, PayinProtocol.PublicMessage)>
    var payinCursors: map<Id, nat>
    var payinWorkers: map<Id, PayinProtocol.Worker>

    // What the tables hold about each payment and each pay-in.
    ghost var rows: map<Id, Row>
    ghost var payinRows: map<Id, PayinProtocol.Payin>

    // ---- Abstraction ------------------------------------------------------------

    /** Everything stored about payment p. */
    function View(p: Id): Row
      requires p in payments
      reads `payments, `journals, `entries, `timeline, `sagas, `payouts, `returned, `submissions, `outbox, `workers, `calls
    {
      var record := payments[p];
      Row(record.amount, record.currency, record.key, record.route, record.status,
          RowsOf(journals, p), RowsOf(entries, p), RowsOf(timeline, p),
          Find(sagas, p), Find(payouts, p), RowsOf(returned, p),
          if p in submissions then submissions[p] else [],
          RowsOf(outbox, p),
          if p in workers then workers[p] else Idle, RowsOf(calls, p))
    }

    /** Everything stored about pay-in p. */
    function PayinView(p: Id): PayinProtocol.Payin
      requires p in payins
      reads `payins, `journals, `entries, `timeline, `payinSagas, `payinEvents, `payinCommands, `payinNotices, `payinCursors, `payinWorkers
    {
      var record := payins[p];
      PayinProtocol.Payin(
        record.amount, record.currency, record.key, record.providerQuote, record.status, record.settlement, record.reference,
        RowsOf(journals, p), RowsOf(entries, p), RowsOf(timeline, p), Find(payinSagas, p),
        RowsOf(payinEvents, p), RowsOf(payinCommands, p), RowsOf(payinNotices, p),
        if p in payinCursors then payinCursors[p] else 0,
        if p in payinWorkers then payinWorkers[p] else PayinProtocol.Idle)
    }

    ghost function Snapshot(): World
      reads this
    {
      World(rows, identities, paymentByKey, quotes, quoteByKey, refunds, refundByKey, payinRows)
    }

    /** `rows` holds what the tables hold about p; only payments have rows in the other tables. */
    ghost predicate Fits(p: Id)
      reads `rows, `payments, `journals, `entries, `timeline, `sagas, `payouts, `returned, `submissions, `outbox, `workers, `calls, `payins
    {
      if p in payments then p in rows && rows[p] == View(p) && p !in payins
      else
        && p !in rows
        && (p !in payins ==> RowsOf(journals, p) == [] && RowsOf(entries, p) == [] && RowsOf(timeline, p) == [])
        && RowsOf(outbox, p) == [] && RowsOf(returned, p) == [] && RowsOf(calls, p) == []
        && p !in sagas && p !in payouts && p !in submissions && p !in workers
    }

    /** The same for pay-ins. */
    ghost predicate PayinFits(p: Id)
      reads `payinRows, `payins, `payinSagas, `payinEvents, `payinCommands, `payinNotices, `payinCursors, `payinWorkers, `journals, `entries, `timeline
    {
      if p in payins then p in payinRows && payinRows[p] == PayinView(p)
      else
        && p !in payinRows
        && RowsOf(payinEvents, p) == [] && RowsOf(payinCommands, p) == [] && RowsOf(payinNotices, p) == []
        && p !in payinSagas && p !in payinCursors && p !in payinWorkers
    }

    ghost predicate Linked()
      reads `rows, `payments, `journals, `entries, `timeline, `sagas, `payouts, `returned, `submissions, `outbox, `workers, `calls
      reads `payinRows, `payins, `payinSagas, `payinEvents, `payinCommands, `payinNotices, `payinCursors, `payinWorkers
    {
      timeouts.Valid() && (forall p :: Fits(p)) && (forall p :: PayinFits(p))
    }

    /** Debits equal credits in every currency. */
    ghost predicate Balanced()
      reads `entries
    {
      forall currency :: Total(entries, currency) == 0
    }

    ghost predicate Valid()
      reads `rows, `payments, `journals, `entries, `timeline, `sagas, `payouts, `returned, `submissions, `outbox, `workers, `calls
      reads `payinRows, `payins, `payinSagas, `payinEvents, `payinCommands, `payinNotices, `payinCursors, `payinWorkers
    {
      Linked() && Balanced()
    }

    constructor (timeouts: Timeouts)
      requires timeouts.Valid()
      ensures Valid() && Snapshot() == EMPTY && this.timeouts == timeouts
    {
      this.timeouts := timeouts;
      payments, identities, paymentByKey, quotes, quoteByKey := map[], map[], map[], map[], map[];
      refunds, refundByKey := [], map[];
      sagas, payouts, journals, entries, timeline, outbox, returned := map[], map[], [], [], [], [], [];
      submissions, workers, calls := map[], map[], [];
      payins, payinSagas, payinEvents, payinCommands, payinNotices := map[], map[], [], [], [];
      payinCursors, payinWorkers := map[], map[];
      rows, payinRows := map[], map[];
    }

    /** A payment row that nothing refers to yet. */
    method AddPayment(p: Id, amount: int, currency: string, key: string, route: Option<Route>)
      requires Linked() && p !in rows && p !in payinRows
      modifies `rows, `payments
      ensures Linked()
      ensures rows == old(rows)[p := Row(amount, currency, key, route, Created, [], [], [], None, None, [], [], [], Idle, [])]
    {
      assert Fits(p) && PayinFits(p);
      payments := payments[p := PaymentRecord(amount, currency, key, route, Created)];
      rows := rows[p := Row(amount, currency, key, route, Created, [], [], [], None, None, [], [], [], Idle, [])];
      forall q ensures Fits(q) { assert old(Fits(q)); }
    }

    // ---- Writes -----------------------------------------------------------------

    method UpdateStatus(p: Id, status: PaymentStatus)
      requires Linked() && p in rows
      modifies `rows, `payments
      ensures Linked() && rows == old(rows)[p := old(rows[p]).(status := status)]
    {
      assert Fits(p);
      payments := payments[p := payments[p].(status := status)];
      rows := rows[p := rows[p].(status := status)];
      forall q ensures Fits(q) { assert old(Fits(q)); }
    }

    method PutSaga(p: Id, saga: Saga)
      requires Linked() && p in rows
      modifies `rows, `sagas
      ensures Linked() && rows == old(rows)[p := old(rows[p]).(saga := Some(saga))]
      ensures sagas == old(sagas)[p := saga]
    {
      assert Fits(p);
      sagas := sagas[p := saga];
      rows := rows[p := rows[p].(saga := Some(saga))];
      forall q ensures Fits(q) { assert old(Fits(q)); }
    }

    method PutPayout(p: Id, payout: Payout)
      requires Linked() && p in rows
      modifies `rows, `payouts
      ensures Linked() && rows == old(rows)[p := old(rows[p]).(payout := Some(payout))]
    {
      assert Fits(p);
      payouts := payouts[p := payout];
      rows := rows[p := rows[p].(payout := Some(payout))];
      forall q ensures Fits(q) { assert old(Fits(q)); }
    }

    method SetWorker(p: Id, worker: Worker)
      requires Linked() && p in rows
      modifies `rows, `workers
      ensures Linked() && rows == old(rows)[p := old(rows[p]).(worker := worker)]
    {
      assert Fits(p);
      workers := workers[p := worker];
      rows := rows[p := rows[p].(worker := worker)];
      forall q ensures Fits(q) { assert old(Fits(q)); }
    }

    method PutSubmission(p: Id, command: EventId, result: ExecutionResult)
      requires Linked() && p in rows
      modifies `rows, `submissions
      ensures Linked() && rows == old(rows)[p := old(rows[p]).(submissions := Upsert(old(rows[p]).submissions, command, result))]
    {
      assert Fits(p);
      submissions := submissions[p := Upsert(if p in submissions then submissions[p] else [], command, result)];
      rows := rows[p := rows[p].(submissions := Upsert(rows[p].submissions, command, result))];
      forall q ensures Fits(q) { assert old(Fits(q)); }
    }

    method InsertTimeline(p: Id, status: PaymentStatus)
      requires Linked() && p in rows
      modifies `rows, `timeline
      ensures Linked() && rows == old(rows)[p := old(rows[p]).(timeline := old(rows[p]).timeline + [status])]
    {
      assert Fits(p);
      RowsOfInsert(timeline, p, status);
      timeline := timeline + [(p, status)];
      rows := rows[p := rows[p].(timeline := rows[p].timeline + [status])];
      forall q ensures Fits(q) { assert old(Fits(q)); }
      forall q ensures PayinFits(q) { assert old(PayinFits(q)); }
    }

    method InsertOutbox(p: Id, e: OutboxEvent)
      requires Linked() && p in rows
      modifies `rows, `outbox
      ensures Linked() && rows == old(rows)[p := old(rows[p]).(outbox := old(rows[p]).outbox + [e])]
    {
      assert Fits(p);
      RowsOfInsert(outbox, p, e);
      outbox := outbox + [(p, e)];
      rows := rows[p := rows[p].(outbox := rows[p].outbox + [e])];
      forall q ensures Fits(q) { assert old(Fits(q)); }
    }

    method InsertReturn(p: Id, r: Return)
      requires Linked() && p in rows
      modifies `rows, `returned
      ensures Linked() && rows == old(rows)[p := old(rows[p]).(returned := old(rows[p]).returned + [r])]
    {
      assert Fits(p);
      RowsOfInsert(returned, p, r);
      returned := returned + [(p, r)];
      rows := rows[p := rows[p].(returned := rows[p].returned + [r])];
      forall q ensures Fits(q) { assert old(Fits(q)); }
    }

    method InsertCall(p: Id, request: ExecuteRequest)
      requires Linked() && p in rows
      modifies `rows, `calls
      ensures Linked() && rows == old(rows)[p := old(rows[p]).(calls := old(rows[p]).calls + [request])]
    {
      assert Fits(p);
      RowsOfInsert(calls, p, request);
      calls := calls + [(p, request)];
      rows := rows[p := rows[p].(calls := rows[p].calls + [request])];
      forall q ensures Fits(q) { assert old(Fits(q)); }
    }

    method InsertEntry(p: Id, e: Entry)
      requires Linked() && p in rows
      modifies `rows, `entries
      ensures Linked() && rows == old(rows)[p := old(rows[p]).(entries := old(rows[p]).entries + [e])]
      ensures entries == old(entries) + [(p, e)]
    {
      assert Fits(p);
      RowsOfInsert(entries, p, e);
      entries := entries + [(p, e)];
      rows := rows[p := rows[p].(entries := rows[p].entries + [e])];
      forall q ensures Fits(q) { assert old(Fits(q)); }
      forall q ensures PayinFits(q) { assert old(PayinFits(q)); }
    }

    method AppendJournal(p: Id, kind: JournalKind)
      requires Linked() && p in rows
      modifies `rows, `journals
      ensures Linked() && rows == old(rows)[p := old(rows[p]).(journals := old(rows[p]).journals + [kind])]
    {
      assert Fits(p);
      RowsOfInsert(journals, p, kind);
      journals := journals + [(p, kind)];
      rows := rows[p := rows[p].(journals := rows[p].journals + [kind])];
      forall q ensures Fits(q) { assert old(Fits(q)); }
      forall q ensures PayinFits(q) { assert old(PayinFits(q)); }
    }

    /** INSERT ... ON CONFLICT(payment_id, event_type) DO NOTHING */
    method InsertJournal(p: Id, kind: JournalKind) returns (inserted: bool)
      requires Linked() && p in rows
      modifies `rows, `journals
      ensures Linked() && inserted == (kind !in old(rows[p]).journals)
      ensures rows == if inserted then old(rows)[p := old(rows[p]).(journals := old(rows[p]).journals + [kind])] else old(rows)
    {
      assert Fits(p);
      RowsOfIn(journals, p, kind);
      inserted := (p, kind) !in journals;
      if inserted {
        AppendJournal(p, kind);
      }
    }

    /** Another payment's message already uses the id. */
    predicate Clash(p: Id, id: EventId)
      reads `outbox
    {
      exists row :: row in outbox && row.0 != p && row.1.id == id
    }

    /** INSERT ... ON CONFLICT(id) DO NOTHING */
    method InsertOutboxOnce(p: Id, e: OutboxEvent)
      requires Linked() && p in rows
      modifies `rows, `outbox
      ensures Linked() && rows == old(rows)[p := SendOnce(old(rows[p]), e.id, old(Clash(p, e.id)), e.body, e.reason)]
    {
      assert Fits(p);
      if exists row :: row in outbox && row.1.id == e.id {
        var row :| row in outbox && row.1.id == e.id;
        RowsOfIn(outbox, p, row.1);
        assert rows == rows[p := rows[p]];
      } else {
        forall x | x in rows[p].outbox ensures x.id != e.id { RowsOfIn(outbox, p, x); }
        InsertOutbox(p, e);
      }
    }

    // ---- Pay-in writes ----------------------------------------------------------

    /** A pay-in that nothing refers to yet. */
    method AddPayin(p: Id, amount: int, currency: string, key: string, providerQuote: string)
      requires Linked() && p !in rows && p !in payinRows
      modifies `payinRows, `payins
      ensures Linked()
      ensures payinRows == old(payinRows)[p := PayinProtocol.NewPayin(amount, currency, key, providerQuote).(timeline := [], events := [], notices := [])]
    {
      assert Fits(p) && PayinFits(p);
      payins := payins[p := PayinRecord(amount, currency, key, providerQuote, Created, PayinProtocol.StatusCreated, "")];
      payinRows := payinRows[p := PayinProtocol.NewPayin(amount, currency, key, providerQuote).(timeline := [], events := [], notices := [])];
      forall q ensures Fits(q) { assert old(Fits(q)); }
      forall q ensures PayinFits(q) { assert old(PayinFits(q)); }
    }

    method PutPayin(p: Id, status: PaymentStatus, settlement: PayinProtocol.PayinStatus, reference: string)
      requires Linked() && p in payinRows
      modifies `payinRows, `payins
      ensures Linked() && payinRows == old(payinRows)[p := old(payinRows[p]).(status := status, settlement := settlement, reference := reference)]
      ensures p in old(payins) && payins == old(payins)[p := old(payins)[p].(status := status, settlement := settlement, reference := reference)]
    {
      assert PayinFits(p);
      payins := payins[p := payins[p].(status := status, settlement := settlement, reference := reference)];
      payinRows := payinRows[p := payinRows[p].(status := status, settlement := settlement, reference := reference)];
      forall q ensures Fits(q) { assert old(Fits(q)); }
      forall q ensures PayinFits(q) { assert old(PayinFits(q)); }
    }

    method PutPayinSaga(p: Id, saga: PayinProtocol.Saga)
      requires Linked() && p in payinRows
      modifies `payinRows, `payinSagas
      ensures Linked() && payinRows == old(payinRows)[p := old(payinRows[p]).(saga := Some(saga))]
      ensures payinSagas == old(payinSagas)[p := saga]
    {
      assert PayinFits(p);
      payinSagas := payinSagas[p := saga];
      payinRows := payinRows[p := payinRows[p].(saga := Some(saga))];
      forall q ensures PayinFits(q) { assert old(PayinFits(q)); }
    }

    method SetCursor(p: Id, next: nat)
      requires Linked() && p in payinRows
      modifies `payinRows, `payinCursors
      ensures Linked() && payinRows == old(payinRows)[p := old(payinRows[p]).(next := next)]
    {
      assert PayinFits(p);
      payinCursors := payinCursors[p := next];
      payinRows := payinRows[p := payinRows[p].(next := next)];
      forall q ensures PayinFits(q) { assert old(PayinFits(q)); }
    }

    method SetPayinWorker(p: Id, worker: PayinProtocol.Worker)
      requires Linked() && p in payinRows
      modifies `payinRows, `payinWorkers
      ensures Linked() && payinRows == old(payinRows)[p := old(payinRows[p]).(worker := worker)]
    {
      assert PayinFits(p);
      payinWorkers := payinWorkers[p := worker];
      payinRows := payinRows[p := payinRows[p].(worker := worker)];
      forall q ensures PayinFits(q) { assert old(PayinFits(q)); }
    }

    method InsertPayinEvent(p: Id, m: PayinProtocol.SagaMessage)
      requires Linked() && p in payinRows
      modifies `payinRows, `payinEvents
      ensures Linked() && payinRows == old(payinRows)[p := old(payinRows[p]).(events := old(payinRows[p]).events + [m])]
    {
      assert PayinFits(p);
      RowsOfInsert(payinEvents, p, m);
      payinEvents := payinEvents + [(p, m)];
      payinRows := payinRows[p := payinRows[p].(events := payinRows[p].events + [m])];
      forall q ensures PayinFits(q) { assert old(PayinFits(q)); }
    }

    method InsertPayinCommand(p: Id, m: PayinProtocol.CommandMessage)
      requires Linked() && p in payinRows
      modifies `payinRows, `payinCommands
      ensures Linked() && payinRows == old(payinRows)[p := old(payinRows[p]).(commands := old(payinRows[p]).commands + [m])]
    {
      assert PayinFits(p);
      RowsOfInsert(payinCommands, p, m);
      payinCommands := payinCommands + [(p, m)];
      payinRows := payinRows[p := payinRows[p].(commands := payinRows[p].commands + [m])];
      forall q ensures PayinFits(q) { assert old(PayinFits(q)); }
    }

    method InsertPayinNotice(p: Id, m: PayinProtocol.PublicMessage)
      requires Linked() && p in payinRows
      modifies `payinRows, `payinNotices
      ensures Linked() && payinRows == old(payinRows)[p := old(payinRows[p]).(notices := old(payinRows[p]).notices + [m])]
    {
      assert PayinFits(p);
      RowsOfInsert(payinNotices, p, m);
      payinNotices := payinNotices + [(p, m)];
      payinRows := payinRows[p := payinRows[p].(notices := payinRows[p].notices + [m])];
      forall q ensures PayinFits(q) { assert old(PayinFits(q)); }
    }

    method InsertPayinTimeline(p: Id, status: PaymentStatus)
      requires Linked() && p in payinRows
      modifies `payinRows, `timeline
      ensures Linked() && payinRows == old(payinRows)[p := old(payinRows[p]).(timeline := old(payinRows[p]).timeline + [status])]
    {
      assert PayinFits(p) && Fits(p);
      RowsOfInsert(timeline, p, status);
      timeline := timeline + [(p, status)];
      payinRows := payinRows[p := payinRows[p].(timeline := payinRows[p].timeline + [status])];
      forall q ensures Fits(q) { assert old(Fits(q)) && (q != p ==> RowsOf(timeline, q) == old(RowsOf(timeline, q))); }
      forall q ensures PayinFits(q) { assert old(PayinFits(q)); }
    }

    method InsertPayinEntry(p: Id, e: Entry)
      requires Linked() && p in payinRows
      modifies `payinRows, `entries
      ensures Linked() && payinRows == old(payinRows)[p := old(payinRows[p]).(entries := old(payinRows[p]).entries + [e])]
      ensures entries == old(entries) + [(p, e)]
    {
      assert PayinFits(p) && Fits(p);
      RowsOfInsert(entries, p, e);
      entries := entries + [(p, e)];
      payinRows := payinRows[p := payinRows[p].(entries := payinRows[p].entries + [e])];
      forall q ensures Fits(q) { assert old(Fits(q)) && (q != p ==> RowsOf(entries, q) == old(RowsOf(entries, q))); }
      forall q ensures PayinFits(q) { assert old(PayinFits(q)); }
    }

    method AppendPayinJournal(p: Id, kind: JournalKind)
      requires Linked() && p in payinRows
      modifies `payinRows, `journals
      ensures Linked() && payinRows == old(payinRows)[p := old(payinRows[p]).(journals := old(payinRows[p]).journals + [kind])]
    {
      assert PayinFits(p) && Fits(p);
      RowsOfInsert(journals, p, kind);
      journals := journals + [(p, kind)];
      payinRows := payinRows[p := payinRows[p].(journals := payinRows[p].journals + [kind])];
      forall q ensures Fits(q) { assert old(Fits(q)) && (q != p ==> RowsOf(journals, q) == old(RowsOf(journals, q))); }
      forall q ensures PayinFits(q) { assert old(PayinFits(q)); }
    }
  }
}
