/** All payments together: quotes, idempotent creation, refunds, and the payout protocol
    running on every payment at once. */
module PaymentWorld {
  import opened PaymentCore
  import opened Ledger
  import opened PayoutSaga
  import opened Provider
  import opened PayoutProtocol
  import PayinProtocol

  // ---- Requests ---------------------------------------------------------------

  datatype QuoteRequest = QuoteRequest(
    key: string, tenant: string, fundingMethod: string, sourceCurrency: string, destinationCurrency: string,
    currencyType: string, amount: int, coverFees: bool, sourceAccount: string, destinationInstrument: string) {
    predicate Valid() {
      && key != "" && tenant != "" && fundingMethod != "" && sourceAccount != "" && destinationInstrument != ""
      && sourceCurrency != "" && destinationCurrency != "" && amount > 0
      && (currencyType == "sender" || currencyType == "receiver")
    }
  }

  datatype CreateRequest = CreateRequest(
    tenant: string, key: string, reference: string, currency: string, amount: int, quote: string,
    fundingMethod: string, sourceAccount: string, destinationInstrument: string) {
    predicate Valid() {
      && TrimSpace(tenant) != "" && TrimSpace(key) != "" && TrimSpace(reference) != ""
      && 3 <= |TrimSpace(currency)| <= 10 && amount > 0
      && (if TrimSpace(quote) != "" then TrimSpace(sourceAccount) == "" && TrimSpace(destinationInstrument) == ""
          else TrimSpace(fundingMethod) != "" && TrimSpace(sourceAccount) != "" && TrimSpace(destinationInstrument) != "")
    }

    /** The quote a direct payout creates for itself. */
    function ImplicitQuote(): QuoteRequest {
      QuoteRequest(key + ":implicit-quote", tenant, fundingMethod, currency, currency, "sender", amount, false, sourceAccount, destinationInstrument)
    }
  }

  datatype RefundRequest = RefundRequest(payment: Id, tenant: string, key: string, amount: int, reason: string, quote: string) {
    predicate Valid() {
      payment != "" && tenant != "" && key != "" && amount > 0 && reason != ""
    }
  }

  // ---- Tables -----------------------------------------------------------------

  datatype QuoteStatus = Open | Accepted | Expired

  /** payment_quotes */
  datatype Quote = Quote(
    request: QuoteRequest, providerQuote: string, sourceCurrency: string, destinationCurrency: string,
    senderAmount: int, expires: int, status: QuoteStatus, payment: Option<Id>)

  datatype Identity = Identity(tenant: string, reference: string)

  /** payment_refunds */
  datatype Refund = Refund(payment: Id, original: Id, amount: int, reason: string)

  /** The tables, with the UNIQUE indexes that the lookups go through. */
  datatype World = World(
    rows: map<Id, Row>, identities: map<Id, Identity>, paymentByKey: map<string, Id>,
    quotes: map<string, Quote>, quoteByKey: map<(string, string), string>,
    refunds: seq<Refund>, refundByKey: map<(string, string), Refund>,
    payins: map<Id, PayinProtocol.Payin>)

  const EMPTY := World(map[], map[], map[], map[], map[], [], map[], map[])

  // ---- Quotes -----------------------------------------------------------------

  /** An existing quote answers a request when every stored term equals the requested one;
      the currencies compared are the ones the provider returned. */
  predicate Answers(q: Quote, request: QuoteRequest) {
    && q.request.sourceAccount == request.sourceAccount && q.request.destinationInstrument == request.destinationInstrument
    && q.request.fundingMethod == request.fundingMethod && q.sourceCurrency == request.sourceCurrency
    && q.destinationCurrency == request.destinationCurrency && q.request.currencyType == request.currencyType
    && q.request.coverFees == request.coverFees && q.request.amount == request.amount
  }

  predicate UsableQuote(reply: ProviderQuote, now: int) {
    && reply.id != "" && reply.sourceCurrency != "" && reply.destinationCurrency != ""
    && reply.senderAmount > 0 && reply.receiverAmount > 0 && reply.expires > now
  }

  predicate ProviderQuoteTaken(w: World, providerQuote: string) {
    exists id :: id in w.quotes && w.quotes[id].providerQuote == providerQuote
  }

  /** CreateQuote: `reply` is the provider's answer and `id` the generated quote id. */
  function CreateQuote(w: World, request: QuoteRequest, reply: Option<ProviderQuote>, now: int, id: string): (World, Option<string>) {
    var at := (request.tenant, request.key);
    if !request.Valid() then (w, None)
    else if at in w.quoteByKey then
      var existing := w.quoteByKey[at];
      if existing in w.quotes && Answers(w.quotes[existing], request) then (w, Some(existing)) else (w, None)
    else if reply.None? || !UsableQuote(reply.value, now) then (w, None)
    else if id == "" || id in w.quotes || ProviderQuoteTaken(w, reply.value.id) then (w, None)
    else
      var quote := Quote(request, reply.value.id, reply.value.sourceCurrency, reply.value.destinationCurrency,
                         reply.value.senderAmount, reply.value.expires, Open, None);
      (w.(quotes := w.quotes[id := quote], quoteByKey := w.quoteByKey[at := id]), Some(id))
  }

  // ---- Payouts ----------------------------------------------------------------

  function QuoteOf(r: Row): string {
    if r.route.Some? then r.route.value.quote else ""
  }

  /** paymentRequestMatches */
  predicate RequestMatches(w: World, p: Id, request: CreateRequest, quote: string) {
    && p in w.rows && p in w.identities
    && w.identities[p] == Identity(request.tenant, request.reference)
    && w.rows[p].currency == request.currency && w.rows[p].amount == request.amount && QuoteOf(w.rows[p]) == quote
  }

  function Lookup(w: World, request: CreateRequest, quote: string): Option<Id> {
    if request.key in w.paymentByKey && RequestMatches(w, w.paymentByKey[request.key], request, quote)
    then Some(w.paymentByKey[request.key]) else None
  }

  /** Inserts a payment with its bound quote, and accepts the quote. */
  function Insert(w: World, p: Id, identity: Identity, amount: int, currency: string, key: string, quote: Option<string>, seed: nat): World
    requires quote.Some? ==> quote.value in w.quotes
  {
    var route := if quote.None? then None else
      var q := w.quotes[quote.value];
      Some(Route(quote.value, q.providerQuote, q.senderAmount, q.sourceCurrency));
    var quotes := if quote.None? then w.quotes else w.quotes[quote.value := w.quotes[quote.value].(status := Accepted, payment := Some(p))];
    w.(rows := w.rows[p := NewRow(amount, currency, key, route, seed)],
       identities := w.identities[p := identity],
       paymentByKey := w.paymentByKey[key := p],
       quotes := quotes)
  }

  /** The transaction of createPayout, once the quote id is known. */
  function AcceptQuote(w: World, request: CreateRequest, quote: string, now: int, p: Id, seed: nat): (World, Option<Id>) {
    if quote !in w.quotes then (w, None)
    else
      var q := w.quotes[quote];
      if q.status == Accepted then (w, Lookup(w, request, quote))
      else if q.status != Open || q.expires <= now then
        (w.(quotes := w.quotes[quote := q.(status := Expired)]), None)
      else if q.request.tenant != request.tenant || q.sourceCurrency != request.currency || q.senderAmount != request.amount then (w, None)
      else if request.key in w.paymentByKey then (w, Lookup(w, request, quote))
      else if p == "" || p in w.rows || p in w.payins then (w, None)
      else (Insert(w, p, Identity(request.tenant, request.reference), request.amount, request.currency, request.key, Some(quote), seed), Some(p))
  }

  /** The quote that createPayout accepts: the one named, or the implicit one of a direct payout. */
  function ObtainQuote(w: World, request: CreateRequest, reply: Option<ProviderQuote>, now: int, quote: string): (World, Option<string>) {
    if request.quote != "" then (w, Some(request.quote)) else CreateQuote(w, request.ImplicitQuote(), reply, now, quote)
  }

  /** createPayout when nothing happens between its two transactions. */
  function CreatePayout(w: World, request: CreateRequest, reply: Option<ProviderQuote>, now: int, quote: string, p: Id, seed: nat): (World, Option<Id>) {
    if !request.Valid() then (w, None)
    else
      var (quoted, id) := ObtainQuote(w, request, reply, now, quote);
      if id.None? then (quoted, None) else AcceptQuote(quoted, request, id.value, now, p, seed)
  }

  // ---- Refunds ----------------------------------------------------------------

  predicate Live(rows: map<Id, Row>, p: Id) {
    p in rows && rows[p].status != Failed
  }

  /** The sum of a payment's refunds whose own payment has not failed. */
  function Refunded(rows: map<Id, Row>, refunds: seq<Refund>, original: Id): int {
    if |refunds| == 0 then 0
    else
      var last := refunds[|refunds| - 1];
      Refunded(rows, refunds[..|refunds| - 1], original)
      + if last.original == original && Live(rows, last.payment) then last.amount else 0
  }

  predicate Refundable(r: Row) {
    r.status == Succeeded && SucceededJournal in r.journals
  }

  predicate CoversRefund(w: World, request: RefundRequest, currency: string, now: int) {
    && request.quote in w.quotes
    && w.quotes[request.quote].status == Open && w.quotes[request.quote].expires > now
    && w.quotes[request.quote].request.tenant == request.tenant
    && w.quotes[request.quote].sourceCurrency == currency && w.quotes[request.quote].senderAmount == request.amount
  }

  /** CreateRefund */
  function CreateRefund(w: World, request: RefundRequest, now: int, p: Id, seed: nat): (World, Option<Id>) {
    var at := (request.tenant, request.key);
    if !request.Valid() || request.payment !in w.rows || request.payment !in w.identities then (w, None)
    else if w.identities[request.payment].tenant != request.tenant then (w, None)
    else if at in w.refundByKey then
      var existing := w.refundByKey[at];
      if existing.payment in w.rows && existing.original == request.payment && existing.amount == request.amount
         && existing.reason == request.reason && QuoteOf(w.rows[existing.payment]) == request.quote
      then (w, Some(existing.payment)) else (w, None)
    else
      var original := w.rows[request.payment];
      if !Refundable(original) then (w, None)
      else if request.amount > original.amount - Refunded(w.rows, w.refunds, request.payment) then (w, None)
      else if request.quote != "" && !CoversRefund(w, request, original.currency, now) then (w, None)
      else if p == "" || p in w.rows || p in w.payins || request.key in w.paymentByKey then (w, None)
      else
        var refund := Refund(p, request.payment, request.amount, request.reason);
        var reference := w.identities[request.payment].reference + ":refund:" + p;
        var inserted := Insert(w, p, Identity(request.tenant, reference), request.amount, original.currency, request.key,
                               if request.quote == "" then None else Some(request.quote), seed);
        (inserted.(refunds := w.refunds + [refund], refundByKey := w.refundByKey[at := refund]), Some(p))
  }

  // ---- Pay-ins ----------------------------------------------------------------

  /** createPayin, once its quote has been accepted. */
  function OpenPayin(w: World, p: Id, amount: int, currency: string, key: string, providerQuote: string): World {
    if p == "" || p in w.rows || p in w.payins || key in w.paymentByKey then w
    else w.(payins := w.payins[p := PayinProtocol.NewPayin(amount, currency, key, providerQuote)], paymentByKey := w.paymentByKey[key := p])
  }

  /** Another pay-in holds the provider reference, which is UNIQUE. */
  predicate Held(payins: map<Id, PayinProtocol.Payin>, p: Id, reference: string) {
    exists q :: q in payins && q != p && payins[q].reference == reference
  }

  /** A pay-in's step, with the table saying whether a reference is taken. */
  function Settled(payins: map<Id, PayinProtocol.Payin>, p: Id, s: PayinProtocol.Step): PayinProtocol.Step
    requires p in payins
  {
    if s.Apply? then PayinProtocol.Apply(payins[p].worker.Finished? && Held(payins, p, payins[p].worker.result.reference)) else s
  }

  // ---- Runs -------------------------------------------------------------------

  /** A direct payout is a QuoteStep for its implicit quote and, later, an AcceptStep. */
  datatype WorldStep =
    | QuoteStep(quoteRequest: QuoteRequest, reply: Option<ProviderQuote>, now: int, id: string)
    | AcceptStep(request: CreateRequest, quote: string, now: int, p: Id, seed: nat)
    | RefundStep(refund: RefundRequest, now: int, p: Id, seed: nat)
    | PaymentStep(p: Id, step: Step)
    | OpenStep(p: Id, amount: int, currency: string, key: string, providerQuote: string)
    | PayinStep(p: Id, payinStep: PayinProtocol.Step)

  function StepWorld(t: Timeouts, w: World, s: WorldStep): World {
    match s
    case QuoteStep(request, reply, now, id) => CreateQuote(w, request, reply, now, id).0
    case AcceptStep(request, quote, now, p, seed) => if request.Valid() then AcceptQuote(w, request, quote, now, p, seed).0 else w
    case RefundStep(request, now, p, seed) => CreateRefund(w, request, now, p, seed).0
    case PaymentStep(p, step) => if p in w.rows then w.(rows := w.rows[p := Perform(t, w.rows[p], step)]) else w
    case OpenStep(p, amount, currency, key, providerQuote) => OpenPayin(w, p, amount, currency, key, providerQuote)
    case PayinStep(p, s) =>
      if p in w.payins then w.(payins := w.payins[p := PayinProtocol.Perform(w.payins[p], Settled(w.payins, p, s))]) else w
  }

  function RunWorld(t: Timeouts, w: World, steps: seq<WorldStep>): World
    decreases |steps|
  {
    if steps == [] then w else RunWorld(t, StepWorld(t, w, steps[0]), steps[1..])
  }
}
