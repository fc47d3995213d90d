/** Quotes, payout creation and refunds as transactions on the database. */
module PaymentService {
  import opened PaymentCore
  import opened Ledger
  import opened PayoutSaga
  import opened Provider
  import opened PayoutProtocol
  import opened PaymentWorld
  import opened Store

  method LookupQuote(db: Database, request: QuoteRequest, existing: string) returns (id: Option<string>)
    ensures id == if existing in db.quotes && Answers(db.quotes[existing], request) then Some(existing) else None
  {
    if existing !in db.quotes {
      return None;
    }
    var quote := db.quotes[existing];
    id := if Answers(quote, request) then Some(existing) else None;
  }

  /** CreateQuote: an existing key answers only an identical request, and a new quote is
      stored only if the provider's answer is usable and its id is not taken. */
  method MakeQuote(db: Database, request: QuoteRequest, reply: Option<ProviderQuote>, now: int, id: string) returns (made: Option<string>)
    requires db.Valid()
    modifies db`quotes, db`quoteByKey
    ensures db.Valid() && (db.Snapshot(), made) == CreateQuote(old(db.Snapshot()), request, reply, now, id)
  {
    var at := (request.tenant, request.key);
    if !request.Valid() {
      return None;
    }
    if at in db.quoteByKey {
      made := LookupQuote(db, request, db.quoteByKey[at]);
      return;
    }
    if reply.None? || !UsableQuote(reply.value, now) || id == "" || id in db.quotes {
      return None;
    }
    if exists other :: other in db.quotes && db.quotes[other].providerQuote == reply.value.id {
      return None;
    }
    db.quotes := db.quotes[id := Quote(request, reply.value.id, reply.value.sourceCurrency, reply.value.destinationCurrency,
                                                    reply.value.senderAmount, reply.value.expires, Open, None)];
    db.quoteByKey := db.quoteByKey[at := id];
    made := Some(id);
  }

  method PutQuote(db: Database, id: string, quote: Quote)
    requires db.Valid()
    modifies db`quotes
    ensures db.Valid() && db.quotes == old(db.quotes)[id := quote]
  {
    db.quotes := db.quotes[id := quote];
  }

  /** The payment row with its first history entry and its two created events. */
  method AddRow(db: Database, p: Id, amount: int, currency: string, key: string, route: Option<Route>, seed: nat)
    requires db.Valid() && p !in db.rows && p !in db.payinRows
    modifies db`rows, db`payments, db`timeline, db`outbox
    ensures db.Valid() && db.rows == old(db.rows)[p := NewRow(amount, currency, key, route, seed)]
  {
    db.AddPayment(p, amount, currency, key, route);
    db.InsertTimeline(p, Created);
    db.InsertOutbox(p, OutboxEvent(Generated(seed), Event(PayoutCreated), ""));
    db.InsertOutbox(p, OutboxEvent(Generated(seed + 1), Public(NoticeCreated), ""));
    assert db.rows[p] == NewRow(amount, currency, key, route, seed);
  }

  /** The inserts of a new payment: its row, history, events and key, and the accepted quote. */
  method InsertPayment(db: Database, p: Id, identity: Identity, amount: int, currency: string, key: string, quote: Option<string>, seed: nat)
    requires db.Valid() && p !in db.rows && p !in db.payinRows && (quote.Some? ==> quote.value in db.quotes)
    modifies db`rows, db`payments, db`timeline, db`outbox, db`identities, db`paymentByKey, db`quotes
    ensures db.Valid() && db.Snapshot() == Insert(old(db.Snapshot()), p, identity, amount, currency, key, quote, seed)
  {
    var route := if quote.None? then None else
      var q := db.quotes[quote.value];
      Some(Route(quote.value, q.providerQuote, q.senderAmount, q.sourceCurrency));
    AddRow(db, p, amount, currency, key, route, seed);
    Register(db, p, identity, key, quote);
  }

  /** The key, the identity and the acceptance of the quote. */
  method Register(db: Database, p: Id, identity: Identity, key: string, quote: Option<string>)
    requires db.Valid() && (quote.Some? ==> quote.value in db.quotes)
    modifies db`identities, db`paymentByKey, db`quotes
    ensures db.Valid()
    ensures db.identities == old(db.identities)[p := identity] && db.paymentByKey == old(db.paymentByKey)[key := p]
    ensures db.quotes == if quote.None? then old(db.quotes)
      else old(db.quotes)[quote.value := old(db.quotes)[quote.value].(status := Accepted, payment := Some(p))]
  {
    db.identities := db.identities[p := identity];
    db.paymentByKey := db.paymentByKey[key := p];
    if quote.Some? {
      PutQuote(db, quote.value, db.quotes[quote.value].(status := Accepted, payment := Some(p)));
    }
  }

  /** getPaymentByIdempotencyKey and paymentRequestMatches */
  method LookupPayment(db: Database, request: CreateRequest, quote: string) returns (found: Option<Id>)
    requires db.Valid()
    ensures found == Lookup(db.Snapshot(), request, quote)
  {
    if request.key !in db.paymentByKey {
      return None;
    }
    var p := db.paymentByKey[request.key];
    assert db.Fits(p);
    if p !in db.payments || p !in db.identities {
      return None;
    }
    var record, identity := db.payments[p], db.identities[p];
    var bound := if record.route.Some? then record.route.value.quote else "";
    if identity.tenant == request.tenant && identity.reference == request.reference && record.currency == request.currency
       && record.amount == request.amount && bound == quote {
      found := Some(p);
    } else {
      found := None;
    }
  }

  /** The transaction of createPayout. */
  method Accept(db: Database, request: CreateRequest, quote: string, now: int, p: Id, seed: nat) returns (made: Option<Id>)
    requires db.Valid()
    modifies db`rows, db`payments, db`timeline, db`outbox, db`identities, db`paymentByKey, db`quotes
    ensures db.Valid() && (db.Snapshot(), made) == AcceptQuote(old(db.Snapshot()), request, quote, now, p, seed)
  {
    if quote !in db.quotes {
      return None;
    }
    var q := db.quotes[quote];
    if q.status == Accepted {
      made := LookupPayment(db, request, quote);
      return;
    }
    if q.status != Open || q.expires <= now {
      PutQuote(db, quote, q.(status := Expired));
      return None;
    }
    if q.request.tenant != request.tenant || q.sourceCurrency != request.currency || q.senderAmount != request.amount {
      return None;
    }
    if request.key in db.paymentByKey {
      made := LookupPayment(db, request, quote);
      return;
    }
    assert db.Fits(p) && db.PayinFits(p);
    if p == "" || p in db.payments || p in db.payins {
      return None;
    }
    InsertPayment(db, p, Identity(request.tenant, request.reference), request.amount, request.currency, request.key, Some(quote), seed);
    made := Some(p);
  }

  /** createPayout: the implicit quote of a direct payout stays even if the payment is refused. */
  method MakePayout(db: Database, request: CreateRequest, reply: Option<ProviderQuote>, now: int, quote: string, p: Id, seed: nat) returns (made: Option<Id>)
    requires db.Valid()
    modifies db`rows, db`payments, db`timeline, db`outbox, db`identities, db`paymentByKey, db`quotes, db`quoteByKey
    ensures db.Valid() && (db.Snapshot(), made) == CreatePayout(old(db.Snapshot()), request, reply, now, quote, p, seed)
  {
    if !request.Valid() {
      return None;
    }
    if request.quote != "" {
      made := Accept(db, request, request.quote, now, p, seed);
      return;
    }
    var id := MakeQuote(db, request.ImplicitQuote(), reply, now, quote);
    if id.None? {
      return None;
    }
    made := Accept(db, request, id.value, now, p, seed);
  }

  /** The running sum that CreateRefund checks under its lock. */
  method SumRefunds(db: Database, original: Id) returns (sum: int)
    requires db.Valid()
    ensures sum == Refunded(db.rows, db.refunds, original)
  {
    sum := 0;
    for i := 0 to |db.refunds|
      invariant sum == Refunded(db.rows, db.refunds[..i], original)
    {
      var refund := db.refunds[i];
      assert db.Fits(refund.payment);
      assert db.refunds[..i + 1][..i] == db.refunds[..i];
      if refund.original == original && refund.payment in db.payments && db.payments[refund.payment].status != Failed {
        sum := sum + refund.amount;
      }
    }
    assert db.refunds[..|db.refunds|] == db.refunds;
  }

  /** loadRefundByIdempotencyKey */
  method LookupRefund(db: Database, request: RefundRequest, existing: Refund) returns (found: Option<Id>)
    requires db.Valid()
    ensures found == if existing.payment in db.rows && existing.original == request.payment && existing.amount == request.amount
                        && existing.reason == request.reason && QuoteOf(db.rows[existing.payment]) == request.quote
                     then Some(existing.payment) else None
  {
    assert db.Fits(existing.payment);
    if existing.payment !in db.payments {
      return None;
    }
    var record := db.payments[existing.payment];
    var bound := if record.route.Some? then record.route.value.quote else "";
    if existing.original == request.payment && existing.amount == request.amount && existing.reason == request.reason && bound == request.quote {
      found := Some(existing.payment);
    } else {
      found := None;
    }
  }

  /** The checks of CreateRefund that follow the key lookup. */
  method RefundAllowed(db: Database, request: RefundRequest, now: int) returns (ok: bool)
    requires db.Valid() && request.payment in db.rows
    ensures ok <==>
      && Refundable(db.rows[request.payment])
      && request.amount <= db.rows[request.payment].amount - Refunded(db.rows, db.refunds, request.payment)
      && (request.quote == "" || CoversRefund(db.Snapshot(), request, db.rows[request.payment].currency, now))
  {
    assert db.Fits(request.payment);
    var record := db.payments[request.payment];
    RowsOfIn(db.journals, request.payment, SucceededJournal);
    var settled := (request.payment, SucceededJournal) in db.journals;
    if record.status != Succeeded || !settled {
      return false;
    }
    var refunded := SumRefunds(db, request.payment);
    if request.amount > record.amount - refunded {
      return false;
    }
    if request.quote == "" {
      return true;
    }
    if request.quote !in db.quotes {
      return false;
    }
    var q := db.quotes[request.quote];
    ok := q.status == Open && q.expires > now && q.request.tenant == request.tenant && q.sourceCurrency == record.currency && q.senderAmount == request.amount;
  }

  method InsertRefund(db: Database, request: RefundRequest, p: Id, seed: nat)
    requires db.Valid() && p !in db.rows && p !in db.payinRows && request.payment in db.rows && request.payment in db.identities
    requires request.quote != "" ==> request.quote in db.quotes
    modifies db`rows, db`payments, db`timeline, db`outbox, db`identities, db`paymentByKey, db`quotes, db`refunds, db`refundByKey
    ensures db.Valid()
    ensures var w := old(db.Snapshot());
      var refund := Refund(p, request.payment, request.amount, request.reason);
      db.Snapshot() == Insert(w, p, Identity(request.tenant, w.identities[request.payment].reference + ":refund:" + p), request.amount,
                              w.rows[request.payment].currency, request.key, if request.quote == "" then None else Some(request.quote), seed)
                       .(refunds := w.refunds + [refund], refundByKey := w.refundByKey[(request.tenant, request.key) := refund])
  {
    assert db.Fits(request.payment);
    var reference := db.identities[request.payment].reference + ":refund:" + p;
    InsertPayment(db, p, Identity(request.tenant, reference), request.amount, db.payments[request.payment].currency, request.key,
                  if request.quote == "" then None else Some(request.quote), seed);
    AddRefund(db, Refund(p, request.payment, request.amount, request.reason), (request.tenant, request.key));
  }

  method AddRefund(db: Database, refund: Refund, at: (string, string))
    requires db.Valid()
    modifies db`refunds, db`refundByKey
    ensures db.Valid() && db.refunds == old(db.refunds) + [refund] && db.refundByKey == old(db.refundByKey)[at := refund]
  {
    db.refunds := db.refunds + [refund];
    db.refundByKey := db.refundByKey[at := refund];
  }

  /** CreateRefund */
  method MakeRefund(db: Database, request: RefundRequest, now: int, p: Id, seed: nat) returns (made: Option<Id>)
    requires db.Valid()
    modifies db`rows, db`payments, db`timeline, db`outbox, db`identities, db`paymentByKey, db`quotes, db`refunds, db`refundByKey
    ensures db.Valid() && (db.Snapshot(), made) == CreateRefund(old(db.Snapshot()), request, now, p, seed)
  {
    assert db.Fits(request.payment) && db.Fits(p) && db.PayinFits(p);
    if !request.Valid() || request.payment !in db.payments || request.payment !in db.identities
       || db.identities[request.payment].tenant != request.tenant {
      return None;
    }
    var at := (request.tenant, request.key);
    if at in db.refundByKey {
      made := LookupRefund(db, request, db.refundByKey[at]);
      return;
    }
    var allowed := RefundAllowed(db, request, now);
    if !allowed || p == "" || p in db.payments || p in db.payins || request.key in db.paymentByKey {
      return None;
    }
    InsertRefund(db, request, p, seed);
    made := Some(p);
  }
}
