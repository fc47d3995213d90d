/** On what terms quotes, payments and refunds come about in a reachable database. */
module WorldTerms {
  import opened PaymentCore
  import opened Ledger
  import opened PayoutSaga
  import opened Provider
  import opened PayoutProtocol
  import opened PayoutInvariant
  import opened PayoutTheorems
  import opened PayoutOrder
  import opened PaymentWorld
  import opened WorldTheorems
  import opened WorldRuns

  // ---- Quotes -----------------------------------------------------------------

  /** The quote offers what was asked for, under an id of the provider's that no other quote has. */
  predicate Offers(w: World, id: string) {
    && id in w.quotes && w.quotes[id].senderAmount > 0 && w.quotes[id].providerQuote != ""
    && (forall other | other in w.quotes && other != id :: w.quotes[other].providerQuote != w.quotes[id].providerQuote)
  }

  /** A quote that is answered carries the requested terms; a new one comes from a usable reply:
      it is open, not yet expired, and at the reply's price. */
  lemma QuotesMeetRequests(w: World, request: QuoteRequest, reply: Option<ProviderQuote>, now: int, id: string)
    requires CreateQuote(w, request, reply, now, id).1.Some?
    ensures var (w', made) := CreateQuote(w, request, reply, now, id);
      && made.value in w'.quotes
      && var q := w'.quotes[made.value];
         && q.request.sourceAccount == request.sourceAccount && q.request.destinationInstrument == request.destinationInstrument
         && q.request.fundingMethod == request.fundingMethod && q.request.currencyType == request.currencyType
         && q.request.coverFees == request.coverFees && q.request.amount == request.amount && request.amount > 0
         && (w' == w ==> q.sourceCurrency == request.sourceCurrency && q.destinationCurrency == request.destinationCurrency)
         && (w' == w || (made.value !in w.quotes && q.status == Open && q.payment == None && now < q.expires && q.senderAmount > 0
                         && reply.Some? && q.providerQuote == reply.value.id != "" && q.senderAmount == reply.value.senderAmount
                         && q.sourceCurrency == reply.value.sourceCurrency && q.expires == reply.value.expires))
  {}

  ghost predicate AllOffer(w: World) { forall id | id in w.quotes :: Offers(w, id) }

  /** The same quotes at the same prices. */
  predicate SamePrices(w: World, w': World) {
    && w'.quotes.Keys == w.quotes.Keys
    && forall id | id in w.quotes :: w'.quotes[id].providerQuote == w.quotes[id].providerQuote && w'.quotes[id].senderAmount == w.quotes[id].senderAmount
  }

  lemma SameQuotesOffer(w: World, w': World)
    requires AllOffer(w) && SamePrices(w, w')
    ensures AllOffer(w')
  {
    forall id | id in w'.quotes ensures Offers(w', id) { assert Offers(w, id); }
  }

  lemma NewQuoteOffers(w: World, request: QuoteRequest, reply: Option<ProviderQuote>, now: int, id: string)
    requires AllOffer(w)
    ensures AllOffer(CreateQuote(w, request, reply, now, id).0)
  {
    var w' := CreateQuote(w, request, reply, now, id).0;
    if w' != w {
      forall x | x in w'.quotes ensures Offers(w', x) {
        if x != id { assert Offers(w, x); }
      }
    }
  }

  lemma AcceptKeepsPrices(w: World, request: CreateRequest, quote: string, now: int, p: Id, seed: nat)
    ensures SamePrices(w, AcceptQuote(w, request, quote, now, p, seed).0)
  {
    AcceptTouchesOne(w, request, quote, now, p, seed);
  }

  lemma AcceptTouchesOne(w: World, request: CreateRequest, quote: string, now: int, p: Id, seed: nat)
    ensures var quotes := AcceptQuote(w, request, quote, now, p, seed).0.quotes;
      quotes == w.quotes
      || (quote in w.quotes && exists status, payment :: quotes == w.quotes[quote := w.quotes[quote].(status := status, payment := payment)])
  {
    if quote in w.quotes {
      var q := w.quotes[quote];
      assert w.quotes[quote := q.(status := Expired)] == w.quotes[quote := q.(status := Expired, payment := q.payment)];
    }
  }

  lemma RefundKeepsPrices(w: World, request: RefundRequest, now: int, p: Id, seed: nat)
    ensures SamePrices(w, CreateRefund(w, request, now, p, seed).0)
  {}

  lemma StepOffers(t: Timeouts, w: World, s: WorldStep)
    requires AllOffer(w)
    ensures AllOffer(StepWorld(t, w, s))
  {
    match s
    case QuoteStep(request, reply, now, id) => NewQuoteOffers(w, request, reply, now, id);
    case AcceptStep(request, quote, now, p, seed) =>
      AcceptKeepsPrices(w, request, quote, now, p, seed);
      if request.Valid() { SameQuotesOffer(w, AcceptQuote(w, request, quote, now, p, seed).0); }
    case RefundStep(request, now, p, seed) =>
      RefundKeepsPrices(w, request, now, p, seed);
      SameQuotesOffer(w, CreateRefund(w, request, now, p, seed).0);
    case _ => SameQuotesOffer(w, StepWorld(t, w, s));
  }

  lemma {:induction false} RunOffers(t: Timeouts, w: World, steps: seq<WorldStep>)
    requires AllOffer(w)
    ensures AllOffer(RunWorld(t, w, steps))
    decreases |steps|
  {
    if steps != [] {
      StepOffers(t, w, steps[0]);
      RunOffers(t, StepWorld(t, w, steps[0]), steps[1..]);
    }
  }

  /** In every reachable database each quote has a positive price and a provider quote of its own. */
  lemma QuotesAreDistinctOffers(t: Timeouts, steps: seq<WorldStep>, id: string)
    requires t.Valid() && id in RunWorld(t, EMPTY, steps).quotes
    ensures Offers(RunWorld(t, EMPTY, steps), id)
  {
    RunOffers(t, EMPTY, steps);
  }

  // ---- Acceptance -------------------------------------------------------------

  /** The step binds the quote to a payment. */
  predicate Binds(w: World, w': World, id: string) {
    id in w'.quotes && w'.quotes[id].payment.Some? && (id !in w.quotes || w.quotes[id].payment.None?)
  }

  lemma AcceptBinds(w: World, request: CreateRequest, quote: string, now: int, p: Id, seed: nat, id: string)
    requires WorldInv(w) && Binds(w, AcceptQuote(w, request, quote, now, p, seed).0, id)
    ensures id == quote && id in w.quotes && w.quotes[id].status == Open && now < w.quotes[id].expires
  {
    assert QuoteFits(w, quote);
  }

  lemma RefundBinds(w: World, request: RefundRequest, now: int, p: Id, seed: nat, id: string)
    requires Binds(w, CreateRefund(w, request, now, p, seed).0, id)
    ensures id == request.quote && id in w.quotes && w.quotes[id].status == Open && now < w.quotes[id].expires
  {}

  /** When a step reads the clock. */
  function ClockOf(s: WorldStep): int {
    match s
    case QuoteStep(_, _, now, _) => now
    case AcceptStep(_, _, now, _, _) => now
    case RefundStep(_, now, _, _) => now
    case _ => 0
  }

  lemma OthersBindNothing(t: Timeouts, w: World, s: WorldStep, id: string)
    requires !s.AcceptStep? && !s.RefundStep?
    ensures !Binds(w, StepWorld(t, w, s), id)
  {}

  /** Whatever step of a run binds a quote to a payment, the quote was open and had not expired
      by the clock of that step. */
  lemma OnlyLiveQuotesBind(t: Timeouts, steps: seq<WorldStep>, s: WorldStep, id: string)
    requires t.Valid() && Binds(RunWorld(t, EMPTY, steps), StepWorld(t, RunWorld(t, EMPTY, steps), s), id)
    ensures var w := RunWorld(t, EMPTY, steps); id in w.quotes && w.quotes[id].status == Open && ClockOf(s) < w.quotes[id].expires
  {
    Reachable(t, steps);
    var w := RunWorld(t, EMPTY, steps);
    match s
    case AcceptStep(request, quote, now, p, seed) => AcceptBinds(w, request, quote, now, p, seed, id);
    case RefundStep(request, now, p, seed) => RefundBinds(w, request, now, p, seed, id);
    case _ => OthersBindNothing(t, w, s, id);
  }

  /** Accepting an open quote past its expiry creates nothing and leaves the quote expired. */
  lemma StaleQuotesExpire(t: Timeouts, w: World, request: CreateRequest, quote: string, now: int, p: Id, seed: nat)
    requires request.Valid() && quote in w.quotes && w.quotes[quote].status == Open && w.quotes[quote].expires <= now
    ensures var w' := StepWorld(t, w, AcceptStep(request, quote, now, p, seed));
      && w' == w.(quotes := w.quotes[quote := w.quotes[quote].(status := Expired)])
      && AcceptQuote(w, request, quote, now, p, seed).1 == None
  {}

  /** An open quote is accepted into a new payment iff it has not expired and tenant, currency
      and amount are those requested. */
  lemma AcceptedIff(w: World, request: CreateRequest, quote: string, now: int, p: Id, seed: nat)
    requires quote in w.quotes && w.quotes[quote].status == Open && request.key !in w.paymentByKey
    requires p != "" && p !in w.rows && p !in w.payins
    ensures var q, made := w.quotes[quote], AcceptQuote(w, request, quote, now, p, seed).1;
      && (made == Some(p) <==> now < q.expires && q.request.tenant == request.tenant && q.sourceCurrency == request.currency && q.senderAmount == request.amount)
      && (made != Some(p) ==> made == None && AcceptQuote(w, request, quote, now, p, seed).0.rows == w.rows)
  {}

  /** Payment p is what the request asks for, on the quote. */
  predicate Meets(w: World, request: CreateRequest, quote: string, p: Id) {
    && p in w.rows && p in w.identities
    && w.rows[p].amount == request.amount && w.rows[p].currency == request.currency && w.rows[p].key == request.key
    && w.identities[p].tenant == request.tenant && w.identities[p].reference == request.reference
    && w.rows[p].route.Some? && w.rows[p].route.value.quote == quote
  }

  lemma FoundMeets(w: World, request: CreateRequest, quote: string)
    requires WorldInv(w) && quote != "" && Lookup(w, request, quote).Some?
    ensures Meets(w, request, quote, Lookup(w, request, quote).value)
  {
    assert KeyFits(w, request.key) && PayinFits(w, w.paymentByKey[request.key]);
  }

  lemma AcceptedMeets(w: World, request: CreateRequest, quote: string, now: int, p: Id, seed: nat)
    requires WorldInv(w) && AcceptQuote(w, request, quote, now, p, seed).1.Some?
    ensures var (w', made) := AcceptQuote(w, request, quote, now, p, seed); Meets(w', request, quote, made.value)
  {
    assert QuoteFits(w, quote);
    if Lookup(w, request, quote).Some? { FoundMeets(w, request, quote); }
  }

  /** Whatever payment a creation answers with, new or found, has the requested terms. */
  lemma CreationsMeetRequests(t: Timeouts, steps: seq<WorldStep>, request: CreateRequest, quote: string, now: int, p: Id, seed: nat)
    requires t.Valid() && AcceptQuote(RunWorld(t, EMPTY, steps), request, quote, now, p, seed).1.Some?
    ensures var (w, made) := AcceptQuote(RunWorld(t, EMPTY, steps), request, quote, now, p, seed); Meets(w, request, quote, made.value)
  {
    Reachable(t, steps);
    AcceptedMeets(RunWorld(t, EMPTY, steps), request, quote, now, p, seed);
  }

  // ---- Refunds ----------------------------------------------------------------

  /** The payment has been settled. */
  ghost predicate Settled(w: World, p: Id) {
    p in w.rows && w.rows[p].status == Succeeded && SucceededJournal in w.rows[p].journals
  }

  ghost predicate RefundsAreSettled(w: World) {
    forall i | 0 <= i < |w.refunds| :: Settled(w, w.refunds[i].original)
  }

  lemma SettledStays(w: World, w': World)
    requires RefundsAreSettled(w) && w'.refunds == w.refunds
    requires forall p | Settled(w, p) :: Settled(w', p)
    ensures RefundsAreSettled(w')
  {}

  lemma PaymentStaysSettled(t: Timeouts, w: World, p: Id, s: Step)
    requires t.Valid() && WorldInv(w) && p in w.rows && w.rows[p].status == Succeeded
    ensures var r := Perform(t, w.rows[p], s); r.status == Succeeded && SucceededJournal in r.journals
  {
    assert PaymentFits(w, p);
    PerformKeeps(t, w.rows[p], s);
    OutcomesAreFinal(t, w.rows[p], s);
  }

  lemma NewRowsKeepSettled(w: World, w': World)
    requires forall p | p in w.rows :: p in w'.rows && w'.rows[p] == w.rows[p]
    ensures forall p | Settled(w, p) :: Settled(w', p)
  {}

  lemma CreationKeepsRows(w: World, request: CreateRequest, quote: string, now: int, p: Id, seed: nat)
    ensures var w' := AcceptQuote(w, request, quote, now, p, seed).0;
      w'.refunds == w.refunds && forall q | q in w.rows :: q in w'.rows && w'.rows[q] == w.rows[q]
  {}

  lemma RefundKeepsRows(w: World, request: RefundRequest, now: int, p: Id, seed: nat)
    ensures var w' := CreateRefund(w, request, now, p, seed).0;
      && (forall q | q in w.rows :: q in w'.rows && w'.rows[q] == w.rows[q])
      && (w'.refunds == w.refunds || (|w'.refunds| == |w.refunds| + 1 && w'.refunds[..|w.refunds|] == w.refunds
            && w'.refunds[|w.refunds|].original == request.payment && Settled(w, request.payment)))
  {}

  lemma RefundStepSettled(w: World, request: RefundRequest, now: int, p: Id, seed: nat)
    requires RefundsAreSettled(w)
    ensures RefundsAreSettled(CreateRefund(w, request, now, p, seed).0)
  {
    var w' := CreateRefund(w, request, now, p, seed).0;
    RefundKeepsRows(w, request, now, p, seed);
    NewRowsKeepSettled(w, w');
    forall i | 0 <= i < |w'.refunds| ensures Settled(w', w'.refunds[i].original) {
      if i < |w.refunds| { assert w'.refunds[..|w.refunds|][i] == w.refunds[i]; }
    }
  }

  lemma QuoteKeepsRows(w: World, request: QuoteRequest, reply: Option<ProviderQuote>, now: int, id: string)
    ensures var w' := CreateQuote(w, request, reply, now, id).0; w'.refunds == w.refunds && w'.rows == w.rows
  {}

  lemma StepSettled(t: Timeouts, w: World, s: WorldStep)
    requires t.Valid() && WorldInv(w) && RefundsAreSettled(w)
    ensures RefundsAreSettled(StepWorld(t, w, s))
  {
    match s
    case QuoteStep(request, reply, now, id) => QuoteKeepsRows(w, request, reply, now, id); SettledStays(w, StepWorld(t, w, s));
    case AcceptStep(request, quote, now, p, seed) =>
      CreationKeepsRows(w, request, quote, now, p, seed);
      NewRowsKeepSettled(w, AcceptQuote(w, request, quote, now, p, seed).0);
      if request.Valid() { SettledStays(w, AcceptQuote(w, request, quote, now, p, seed).0); }
    case RefundStep(request, now, p, seed) => RefundStepSettled(w, request, now, p, seed);
    case PaymentStep(p, step) => if p in w.rows { PaymentStepSettled(t, w, p, step); }
    case OpenStep(_, _, _, _, _) => SettledStays(w, StepWorld(t, w, s));
    case PayinStep(_, _) => SettledStays(w, StepWorld(t, w, s));
  }

  lemma PaymentStepSettled(t: Timeouts, w: World, p: Id, s: Step)
    requires t.Valid() && WorldInv(w) && RefundsAreSettled(w) && p in w.rows
    ensures RefundsAreSettled(w.(rows := w.rows[p := Perform(t, w.rows[p], s)]))
  {
    var w' := w.(rows := w.rows[p := Perform(t, w.rows[p], s)]);
    if w.rows[p].status == Succeeded { PaymentStaysSettled(t, w, p, s); }
    SettledStays(w, w');
  }

  lemma {:induction false} RunSettled(t: Timeouts, w: World, steps: seq<WorldStep>)
    requires t.Valid() && WorldInv(w) && RefundsAreSettled(w)
    ensures RefundsAreSettled(RunWorld(t, w, steps))
    decreases |steps|
  {
    if steps != [] {
      StepSettled(t, w, steps[0]);
      StepWorldKeeps(t, w, steps[0]);
      RunSettled(t, StepWorld(t, w, steps[0]), steps[1..]);
    }
  }

  /** In every reachable database, only settled payments have refunds. */
  lemma OnlySettledPaymentsAreRefunded(t: Timeouts, steps: seq<WorldStep>, i: nat)
    requires t.Valid() && i < |RunWorld(t, EMPTY, steps).refunds|
    ensures var w := RunWorld(t, EMPTY, steps); var p := w.refunds[i].original;
      p in w.rows && w.rows[p].status == Succeeded && SucceededJournal in w.rows[p].journals
  {
    EmptyInv();
    RunSettled(t, EMPTY, steps);
  }

  /** The refunds of p that still count: those whose own payment has not failed. */
  function Outgoing(rows: map<Id, Row>, refunds: seq<Refund>, p: Id): int {
    if |refunds| == 0 then 0
    else
      var last := refunds[|refunds| - 1];
      Outgoing(rows, refunds[..|refunds| - 1], p)
      + if last.original == p && last.payment in rows && rows[last.payment].status in {Created, Processing, Succeeded} then last.amount else 0
  }

  lemma {:induction false} OutgoingIsRefunded(rows: map<Id, Row>, refunds: seq<Refund>, p: Id)
    ensures Refunded(rows, refunds, p) == Outgoing(rows, refunds, p)
  {
    if |refunds| > 0 { OutgoingIsRefunded(rows, refunds[..|refunds| - 1], p); }
  }

  /** The quote of a refund, if it names one, is live and for the refunded amount. */
  predicate Covered(w: World, request: RefundRequest, currency: string, now: int) {
    request.quote == "" ||
    (request.quote in w.quotes && w.quotes[request.quote].status == Open && now < w.quotes[request.quote].expires
     && w.quotes[request.quote].request.tenant == request.tenant && w.quotes[request.quote].sourceCurrency == currency
     && w.quotes[request.quote].senderAmount == request.amount)
  }

  /** In every reachable database a first refund request by the payment's own tenant is granted
      iff the payment has succeeded, the amount fits in what its other refunds have left, and
      a quote that it names is live and for that amount. */
  lemma RefundedIff(t: Timeouts, steps: seq<WorldStep>, request: RefundRequest, now: int, p: Id, seed: nat)
    requires t.Valid() && request.Valid()
    requires var w := RunWorld(t, EMPTY, steps);
      && request.payment in w.rows && request.payment in w.identities && w.identities[request.payment].tenant == request.tenant
      && (request.tenant, request.key) !in w.refundByKey && request.key !in w.paymentByKey && p != "" && p !in w.rows && p !in w.payins
    ensures var w := RunWorld(t, EMPTY, steps);
      var original := w.rows[request.payment];
      var (w', made) := CreateRefund(w, request, now, p, seed);
      && (made == Some(p) <==> original.status == Succeeded && Outgoing(w.rows, w.refunds, request.payment) + request.amount <= original.amount
                               && Covered(w, request, original.currency, now))
      && (made == Some(p) ==> p in w'.rows && w'.rows[p].amount == request.amount && w'.rows[p].currency == original.currency)
      && (made != Some(p) ==> made == None && w' == w)
  {
    Reachable(t, steps);
    var w := RunWorld(t, EMPTY, steps);
    assert PaymentFits(w, request.payment);
    OutgoingIsRefunded(w.rows, w.refunds, request.payment);
  }
}
