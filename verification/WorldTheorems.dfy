/** Money and identity across payments: quotes bind once, creation is idempotent, refunds
    never exceed their payment, and the provider sees one payout per payment. */
module WorldTheorems {
  import opened PaymentCore
  import opened Ledger
  import opened PayoutSaga
  import opened Provider
  import opened PayoutProtocol
  import opened PayoutInvariant
  import opened PayoutTheorems
  import opened PayoutOrder
  import opened PaymentWorld
  import PayinProtocol
  import PayinTheorems
  import PayinReceipts

  // ---- The invariant ----------------------------------------------------------

  /** Payment p is consistent on its own, is found by its key, and holds at most one quote. */
  ghost predicate PaymentFits(w: World, p: Id) {
    p in w.rows ==>
      && RowInv(w.rows[p]) && p in w.identities
      && w.rows[p].key in w.paymentByKey && w.paymentByKey[w.rows[p].key] == p
      && (w.rows[p].route.Some? ==> w.rows[p].route.value.quote in w.quotes && w.quotes[w.rows[p].route.value.quote].payment == Some(p))
  }

  predicate KeyFits(w: World, key: string) {
    key in w.paymentByKey ==>
      var p := w.paymentByKey[key];
      (p in w.rows && w.rows[p].key == key) || (p in w.payins && w.payins[p].key == key)
  }

  /** Pay-in p is consistent on its own, is found by its key, and is no payout. */
  ghost predicate PayinFits(w: World, p: Id) {
    p in w.payins ==>
      && PayinReceipts.ReceiptInv(w.payins[p]) && p !in w.rows
      && w.payins[p].key in w.paymentByKey && w.paymentByKey[w.payins[p].key] == p
  }

  predicate ReferencesDiffer(payins: map<Id, PayinProtocol.Payin>) {
    forall p, q | p in payins && q in payins && p != q :: payins[p].reference == "" || payins[p].reference != payins[q].reference
  }

  /** Quote `id` is accepted by payment p on equal terms. */
  predicate BoundTo(w: World, id: string, p: Id) {
    && id in w.quotes && p in w.rows && p in w.identities
    && w.rows[p].route == Some(Route(id, w.quotes[id].providerQuote, w.quotes[id].senderAmount, w.quotes[id].sourceCurrency))
    && w.identities[p].tenant == w.quotes[id].request.tenant
    && w.rows[p].amount == w.quotes[id].senderAmount && w.rows[p].currency == w.quotes[id].sourceCurrency
  }

  predicate QuoteFits(w: World, id: string) {
    id in w.quotes ==>
      var q := w.quotes[id];
      && id != ""
      && (q.request.tenant, q.request.key) in w.quoteByKey && w.quoteByKey[(q.request.tenant, q.request.key)] == id
      && (q.status == Accepted <==> q.payment.Some?)
      && (q.payment.Some? ==> BoundTo(w, id, q.payment.value))
  }

  /** The non-failed refunds of p fit in its amount. */
  predicate CapFits(w: World, p: Id) {
    p in w.rows ==> Refunded(w.rows, w.refunds, p) <= w.rows[p].amount
  }

  ghost predicate RefundsFit(w: World) {
    forall i | 0 <= i < |w.refunds| :: w.refunds[i].payment in w.rows && w.refunds[i].original in w.rows && w.refunds[i].amount > 0
  }

  ghost predicate WorldInv(w: World) {
    && (forall p :: PaymentFits(w, p))
    && (forall key :: KeyFits(w, key))
    && (forall id :: QuoteFits(w, id))
    && (forall p :: CapFits(w, p))
    && RefundsFit(w)
    && (forall p :: PayinFits(w, p))
    && ReferencesDiffer(w.payins)
  }

  lemma EmptyInv()
    ensures WorldInv(EMPTY)
  {}

  // ---- Payment steps ----------------------------------------------------------

  predicate SameTerms(r: Row, r': Row) {
    r'.amount == r.amount && r'.currency == r.currency && r'.key == r.key && r'.route == r.route
  }

  lemma ReplyKeepsTerms(r: Row, posted: Row, reply: SagaEvent, reason: string, id: nat)
    requires SameTerms(r, posted)
    ensures SameTerms(r, Reply(posted, reply, reason, id))
  {}

  lemma WorkKeepsTerms(t: Timeouts, r: Row, i: nat, decision: Decision, id: nat)
    ensures SameTerms(r, Perform(t, r, Work(i, decision, id)))
  {
    if i < |r.outbox| && r.outbox[i].body.Order? {
      var reason := r.outbox[i].reason;
      match r.outbox[i].body.command
      case LedgerReserve => if Reserve(r).Posted? { ReplyKeepsTerms(r, Reserve(r).row, FundsReserved, reason, id); }
      case LedgerRelease => if Release(r).Posted? { ReplyKeepsTerms(r, Release(r).row, FundsReleased, reason, id); }
      case PaymentSettle => if Settle(r).Posted? { ReplyKeepsTerms(r, Settle(r).row, PayoutCompleted, reason, id); }
      case SettlementExecute =>
      case _ =>
    }
  }

  lemma WebhookKeepsTerms(r: Row, svix: string, status: SettlementStatus, clash: bool)
    ensures SameTerms(r, Webhook(r, svix, status, clash))
  {}

  /** No step of the protocol changes what creation fixed. */
  lemma StepKeepsTerms(t: Timeouts, r: Row, s: Step)
    ensures SameTerms(r, Perform(t, r, s))
  {
    match s
    case Work(i, decision, id) => WorkKeepsTerms(t, r, i, decision, id);
    case Notify(svix, status, clash) => WebhookKeepsTerms(r, svix, status, clash);
    case Deliver(_, _, _) | Expire(_, _) | Review(_, _, _, _, _) =>
    case _ =>
  }

  /** A refund total can only fall when a payment takes a step, because failed is final. */
  lemma {:induction false} RefundedFalls(rows: map<Id, Row>, rows': map<Id, Row>, refunds: seq<Refund>, original: Id)
    requires forall i | 0 <= i < |refunds| :: refunds[i].amount > 0
    requires forall p | Live(rows', p) :: Live(rows, p) || p !in rows
    requires forall i | 0 <= i < |refunds| :: refunds[i].payment in rows
    ensures Refunded(rows', refunds, original) <= Refunded(rows, refunds, original)
  {
    if |refunds| > 0 {
      RefundedFalls(rows, rows', refunds[..|refunds| - 1], original);
    }
  }

  /** Replacing one row by one with the same terms keeps the invariant. */
  lemma ReplaceKeeps(w: World, p: Id, row: Row)
    requires WorldInv(w) && p in w.rows && RowInv(row) && SameTerms(w.rows[p], row)
    requires w.rows[p].status == Failed ==> row.status == Failed
    ensures WorldInv(w.(rows := w.rows[p := row]))
  {
    var w' := w.(rows := w.rows[p := row]);
    forall q ensures PaymentFits(w', q) { assert PaymentFits(w, q); }
    forall key ensures KeyFits(w', key) { assert KeyFits(w, key); }
    forall id ensures QuoteFits(w', id) { assert QuoteFits(w, id); }
    forall q ensures PayinFits(w', q) { assert PayinFits(w, q); }
    forall q
      ensures CapFits(w', q)
    {
      assert CapFits(w, q);
      RefundedFalls(w.rows, w'.rows, w.refunds, q);
    }
  }

  lemma PaymentStepKeeps(t: Timeouts, w: World, p: Id, step: Step)
    requires t.Valid() && WorldInv(w)
    ensures WorldInv(StepWorld(t, w, PaymentStep(p, step)))
  {
    if p in w.rows {
      assert PaymentFits(w, p);
      PerformKeeps(t, w.rows[p], step);
      StepKeepsTerms(t, w.rows[p], step);
      OutcomesAreFinal(t, w.rows[p], step);
      ReplaceKeeps(w, p, Perform(t, w.rows[p], step));
    }
  }

  // ---- Creation steps ---------------------------------------------------------

  lemma QuoteStepKeeps(w: World, request: QuoteRequest, reply: Option<ProviderQuote>, now: int, id: string)
    requires WorldInv(w)
    ensures WorldInv(CreateQuote(w, request, reply, now, id).0)
  {
    var w' := CreateQuote(w, request, reply, now, id).0;
    if w' != w {
      forall p ensures PaymentFits(w', p) { assert PaymentFits(w, p); }
      forall key ensures KeyFits(w', key) { assert KeyFits(w, key); }
      forall x ensures QuoteFits(w', x) { assert QuoteFits(w, x); }
      forall p ensures CapFits(w', p) { assert CapFits(w, p); }
      forall p ensures PayinFits(w', p) { assert PayinFits(w, p); }
    }
  }

  lemma ExpireQuoteKeeps(w: World, id: string)
    requires WorldInv(w) && id in w.quotes && w.quotes[id].status != Accepted
    ensures WorldInv(w.(quotes := w.quotes[id := w.quotes[id].(status := Expired)]))
  {
    var w' := w.(quotes := w.quotes[id := w.quotes[id].(status := Expired)]);
    forall p ensures PaymentFits(w', p) { assert PaymentFits(w, p); }
    forall key ensures KeyFits(w', key) { assert KeyFits(w, key); }
    forall x ensures QuoteFits(w', x) { assert QuoteFits(w, x); }
    forall p ensures CapFits(w', p) { assert CapFits(w, p); }
    forall p ensures PayinFits(w', p) { assert PayinFits(w, p); }
  }

  lemma {:induction false} NoRefunds(rows: map<Id, Row>, refunds: seq<Refund>, p: Id)
    requires forall i | 0 <= i < |refunds| :: refunds[i].original != p
    ensures Refunded(rows, refunds, p) == 0
  {
    if |refunds| > 0 {
      NoRefunds(rows, refunds[..|refunds| - 1], p);
    }
  }

  /** The quote is open and its terms are the payment's. */
  predicate Acceptable(w: World, tenant: string, amount: int, currency: string, quote: string) {
    && quote in w.quotes && w.quotes[quote].status == Open
    && w.quotes[quote].request.tenant == tenant && w.quotes[quote].senderAmount == amount && w.quotes[quote].sourceCurrency == currency
  }

  lemma InsertKeepsCaps(w: World, p: Id, row: Row, q: Id)
    requires WorldInv(w) && p !in w.rows && row.amount > 0
    ensures CapFits(w.(rows := w.rows[p := row]), q)
  {
    assert CapFits(w, q);
    RefundedFalls(w.rows, w.rows[p := row], w.refunds, q);
    if q == p { NoRefunds(w.rows[p := row], w.refunds, p); }
  }

  lemma InsertKeepsPayment(w: World, w': World, p: Id, identity: Identity, amount: int, currency: string, key: string, quote: Option<string>, seed: nat, q: Id)
    requires WorldInv(w) && p !in w.rows && p !in w.payins && key !in w.paymentByKey && amount > 0
    requires quote.Some? ==> Acceptable(w, identity.tenant, amount, currency, quote.value)
    requires w' == Insert(w, p, identity, amount, currency, key, quote, seed)
    ensures PaymentFits(w', q)
  {
    assert PaymentFits(w, q);
    if quote.Some? { assert QuoteFits(w, quote.value); }
    if q == p { NewRowInv(amount, currency, key, w'.rows[p].route, seed); }
  }

  lemma InsertKeeps(w: World, p: Id, identity: Identity, amount: int, currency: string, key: string, quote: Option<string>, seed: nat)
    requires WorldInv(w) && p !in w.rows && p !in w.payins && key !in w.paymentByKey && amount > 0
    requires quote.Some? ==> Acceptable(w, identity.tenant, amount, currency, quote.value)
    ensures WorldInv(Insert(w, p, identity, amount, currency, key, quote, seed))
  {
    var w' := Insert(w, p, identity, amount, currency, key, quote, seed);
    forall q ensures PaymentFits(w', q) { InsertKeepsPayment(w, w', p, identity, amount, currency, key, quote, seed, q); }
    forall k ensures KeyFits(w', k) { assert KeyFits(w, k); }
    forall x ensures QuoteFits(w', x) { assert QuoteFits(w, x); }
    forall q ensures CapFits(w', q) { InsertKeepsCaps(w, p, w'.rows[p], q); }
    forall q ensures PayinFits(w', q) { assert PayinFits(w, q); }
  }

  lemma AcceptKeeps(w: World, request: CreateRequest, quote: string, now: int, p: Id, seed: nat)
    requires WorldInv(w) && request.amount > 0
    ensures WorldInv(AcceptQuote(w, request, quote, now, p, seed).0)
  {
    if quote in w.quotes {
      var q := w.quotes[quote];
      if q.status != Accepted && (q.status != Open || q.expires <= now) {
        ExpireQuoteKeeps(w, quote);
      } else if Acceptable(w, request.tenant, request.amount, request.currency, quote) && request.key !in w.paymentByKey && p !in w.rows && p !in w.payins {
        InsertKeeps(w, p, Identity(request.tenant, request.reference), request.amount, request.currency, request.key, Some(quote), seed);
      }
    }
  }

  lemma AddRefundKeeps(w: World, refund: Refund, at: (string, string))
    requires WorldInv(w) && refund.payment in w.rows && refund.original in w.rows && refund.amount > 0
    requires Refunded(w.rows, w.refunds, refund.original) + refund.amount <= w.rows[refund.original].amount
    ensures WorldInv(w.(refunds := w.refunds + [refund], refundByKey := w.refundByKey[at := refund]))
  {
    var w' := w.(refunds := w.refunds + [refund], refundByKey := w.refundByKey[at := refund]);
    assert w'.refunds[..|w.refunds|] == w.refunds;
    forall q ensures PaymentFits(w', q) { assert PaymentFits(w, q); }
    forall k ensures KeyFits(w', k) { assert KeyFits(w, k); }
    forall x ensures QuoteFits(w', x) { assert QuoteFits(w, x); }
    forall q ensures CapFits(w', q) { assert CapFits(w, q); }
    forall q ensures PayinFits(w', q) { assert PayinFits(w, q); }
  }

  lemma RefundStepKeeps(w: World, request: RefundRequest, now: int, p: Id, seed: nat)
    requires WorldInv(w)
    ensures WorldInv(CreateRefund(w, request, now, p, seed).0)
  {
    var at := (request.tenant, request.key);
    var w' := CreateRefund(w, request, now, p, seed).0;
    if w' != w {
      var original := w.rows[request.payment];
      var quote := if request.quote == "" then None else Some(request.quote);
      var identity := Identity(request.tenant, w.identities[request.payment].reference + ":refund:" + p);
      var inserted := Insert(w, p, identity, request.amount, original.currency, request.key, quote, seed);
      InsertKeeps(w, p, identity, request.amount, original.currency, request.key, quote, seed);
      RefundedFalls(w.rows, inserted.rows, w.refunds, request.payment);
      AddRefundKeeps(inserted, Refund(p, request.payment, request.amount, request.reason), at);
    }
  }

  // ---- Pay-ins ----------------------------------------------------------------

  lemma PayinsKeep(w: World, w': World)
    requires WorldInv(w) && w' == w.(payins := w'.payins, paymentByKey := w'.paymentByKey)
    requires forall k | k in w.paymentByKey :: k in w'.paymentByKey && w'.paymentByKey[k] == w.paymentByKey[k]
    requires forall key :: KeyFits(w', key)
    requires forall p :: PayinFits(w', p)
    requires ReferencesDiffer(w'.payins)
    ensures WorldInv(w')
  {
    forall p ensures PaymentFits(w', p) { assert PaymentFits(w, p); }
    forall id ensures QuoteFits(w', id) { assert QuoteFits(w, id); }
    forall p ensures CapFits(w', p) { assert CapFits(w, p); }
  }

  lemma OpenKeeps(w: World, p: Id, amount: int, currency: string, key: string, providerQuote: string)
    requires WorldInv(w)
    ensures WorldInv(OpenPayin(w, p, amount, currency, key, providerQuote))
  {
    var w' := OpenPayin(w, p, amount, currency, key, providerQuote);
    if w' != w {
      PayinTheorems.NewPayinInv(amount, currency, key, providerQuote);
      forall k ensures KeyFits(w', k) { assert KeyFits(w, k); }
      forall q ensures PayinFits(w', q) { assert PayinFits(w, q); }
      PayinsKeep(w, w');
    }
  }

  lemma ResultNames(p: PayinProtocol.Payin, result: ExecutionResult, taken: bool)
    ensures var applied := PayinProtocol.ApplyResult(p, result, taken);
      applied.Some? ==> applied.value.reference == result.reference && applied.value.key == p.key
  {}

  lemma WorkNames(p: PayinProtocol.Payin, message: PayinProtocol.CommandMessage, decision: PayinProtocol.Decision, id: nat)
    ensures var p' := PayinProtocol.HandleCommand(p, message, decision, id); p'.key == p.key && (p'.reference == p.reference || p'.reference == "")
  {
    ResultNames(p, PayinProtocol.FailedResult("", message.reason), false);
    if decision.Reject? { ResultNames(p, PayinProtocol.FailedResult("", decision.reason), false); }
  }

  /** A reference is only ever set to what a result carries, and only if it is free. */
  lemma StepNames(p: PayinProtocol.Payin, s: PayinProtocol.Step)
    ensures var p' := PayinProtocol.Perform(p, s);
      && p'.key == p.key
      && (p'.reference == p.reference || p'.reference == "" || (s.Apply? && !s.taken && p.worker.Finished? && p'.reference == p.worker.result.reference))
  {
    match s
    case Work(decision, id) =>
      if p.worker == PayinProtocol.Idle && p.next < |p.commands| { WorkNames(p, p.commands[p.next], decision, id); }
    case Apply(taken) => if p.worker.Finished? { ResultNames(p, p.worker.result, taken); }
    case Notify(reference, reported) => PayinReceipts.WebhookTouches(p, reported);
    case _ =>
  }

  lemma PayinStepKeeps(w: World, p: Id, s: PayinProtocol.Step)
    requires WorldInv(w) && p in w.payins
    ensures WorldInv(w.(payins := w.payins[p := PayinProtocol.Perform(w.payins[p], Settled(w.payins, p, s))]))
  {
    var step := Settled(w.payins, p, s);
    var payin := PayinProtocol.Perform(w.payins[p], step);
    StepNames(w.payins[p], step);
    assert PayinFits(w, p);
    PayinReceipts.StepFits(w.payins[p], step);
    ReplacePayinKeeps(w, p, payin);
  }

  lemma ReplacePayinKeeps(w: World, p: Id, payin: PayinProtocol.Payin)
    requires WorldInv(w) && p in w.payins && PayinReceipts.ReceiptInv(payin) && payin.key == w.payins[p].key
    requires payin.reference == w.payins[p].reference || payin.reference == "" || !Held(w.payins, p, payin.reference)
    ensures WorldInv(w.(payins := w.payins[p := payin]))
  {
    var w' := w.(payins := w.payins[p := payin]);
    forall k ensures KeyFits(w', k) { assert KeyFits(w, k); }
    forall q ensures PayinFits(w', q) { assert PayinFits(w, q); }
    PayinsKeep(w, w');
  }

  lemma StepWorldKeeps(t: Timeouts, w: World, s: WorldStep)
    requires t.Valid() && WorldInv(w)
    ensures WorldInv(StepWorld(t, w, s))
  {
    match s
    case QuoteStep(request, reply, now, id) => QuoteStepKeeps(w, request, reply, now, id);
    case AcceptStep(request, quote, now, p, seed) => if request.Valid() { AcceptKeeps(w, request, quote, now, p, seed); }
    case RefundStep(request, now, p, seed) => RefundStepKeeps(w, request, now, p, seed);
    case PaymentStep(p, step) => PaymentStepKeeps(t, w, p, step);
    case OpenStep(p, amount, currency, key, providerQuote) => OpenKeeps(w, p, amount, currency, key, providerQuote);
    case PayinStep(p, s) => if p in w.payins { PayinStepKeeps(w, p, s); }
  }

  lemma {:induction false} RunWorldKeeps(t: Timeouts, w: World, steps: seq<WorldStep>)
    requires t.Valid() && WorldInv(w)
    ensures WorldInv(RunWorld(t, w, steps))
    decreases |steps|
  {
    if steps != [] {
      StepWorldKeeps(t, w, steps[0]);
      RunWorldKeeps(t, StepWorld(t, w, steps[0]), steps[1..]);
    }
  }
}
