/** What holds of the whole database in every run. */
module WorldRuns {
  import opened PaymentCore
  import opened Ledger
  import opened PayoutSaga
  import opened Provider
  import opened PayoutProtocol
  import opened PayoutInvariant
  import opened PaymentWorld
  import opened WorldTheorems
  import PayinProtocol
  import PayinTheorems

  lemma Reachable(t: Timeouts, steps: seq<WorldStep>)
    requires t.Valid()
    ensures WorldInv(RunWorld(t, EMPTY, steps))
  {
    EmptyInv();
    RunWorldKeeps(t, EMPTY, steps);
  }

  /** Non-failed refunds never add up to more than the payment they refund, however
      refund creation interleaves with refund payouts failing or succeeding. */
  lemma RefundsNeverExceedPayment(t: Timeouts, steps: seq<WorldStep>, p: Id)
    requires t.Valid() && p in RunWorld(t, EMPTY, steps).rows
    ensures var w := RunWorld(t, EMPTY, steps); Refunded(w.rows, w.refunds, p) <= w.rows[p].amount
  {
    Reachable(t, steps);
    assert CapFits(RunWorld(t, EMPTY, steps), p);
  }

  /** An accepted quote belongs to exactly one payment, on equal tenant, currency and
      amount, and a payment has at most one quote. */
  lemma QuotesBindOnce(t: Timeouts, steps: seq<WorldStep>, id: string, other: string)
    requires t.Valid()
    requires var w := RunWorld(t, EMPTY, steps); id in w.quotes && w.quotes[id].status == Accepted
    ensures var w := RunWorld(t, EMPTY, steps);
      && w.quotes[id].payment.Some?
      && var p := w.quotes[id].payment.value;
         && BoundTo(w, id, p)
         && (forall q | q in w.rows && QuoteOf(w.rows[q]) == id :: q == p)
         && (other in w.quotes && w.quotes[other].payment == Some(p) ==> other == id)
  {
    Reachable(t, steps);
    var w := RunWorld(t, EMPTY, steps);
    assert QuoteFits(w, id) && QuoteFits(w, other);
    forall q | q in w.rows && QuoteOf(w.rows[q]) == id
      ensures q == w.quotes[id].payment.value
    {
      assert PaymentFits(w, q);
    }
  }

  /** Provider calls of different payments never share an idempotency key, so a provider
      that keeps one payout per key holds at most one payout per payment. */
  lemma ProviderKeysIdentifyPayments(t: Timeouts, steps: seq<WorldStep>, p: Id, q: Id, c: ExecuteRequest, d: ExecuteRequest)
    requires t.Valid()
    requires var w := RunWorld(t, EMPTY, steps); p in w.rows && q in w.rows && c in w.rows[p].calls && d in w.rows[q].calls
    ensures c.key == d.key <==> p == q
    ensures p == q ==> c == d
  {
    Reachable(t, steps);
    var w := RunWorld(t, EMPTY, steps);
    assert PaymentFits(w, p) && PaymentFits(w, q);
  }

  /** Whatever calls of whatever payments reach the provider, in any order and any number
      of times, different payouts it holds belong to different payments. */
  lemma OnePayoutPerPayment(t: Timeouts, steps: seq<WorldStep>, calls: seq<(ExecuteRequest, ExecutionResult)>, k: string, l: string)
    requires t.Valid()
    requires var w := RunWorld(t, EMPTY, steps); forall i | 0 <= i < |calls| :: exists p :: p in w.rows && calls[i].0 in w.rows[p].calls
    requires k in ServeAll(map[], calls) && l in ServeAll(map[], calls)
    ensures var w := RunWorld(t, EMPTY, steps);
      && k in w.paymentByKey && l in w.paymentByKey
      && (k == l <==> w.paymentByKey[k] == w.paymentByKey[l])
  {
    Reachable(t, steps);
    var w := RunWorld(t, EMPTY, steps);
    var i := PayoutsWereRequested(calls, k);
    var j := PayoutsWereRequested(calls, l);
    var p :| p in w.rows && calls[i].0 in w.rows[p].calls;
    var q :| q in w.rows && calls[j].0 in w.rows[q].calls;
    assert PaymentFits(w, p) && PaymentFits(w, q);
  }

  // ---- Idempotent creation ----------------------------------------------------

  /** The database has kept everything that creation fixed. */
  ghost predicate Grew(w: World, w': World) {
    && (forall p | p in w.rows :: p in w'.rows && SameTerms(w.rows[p], w'.rows[p]))
    && (forall p | p in w.rows && p in w.identities :: p in w'.identities && w'.identities[p] == w.identities[p])
    && (forall k | k in w.paymentByKey :: k in w'.paymentByKey && w'.paymentByKey[k] == w.paymentByKey[k])
    && (forall at | at in w.quoteByKey :: at in w'.quoteByKey && w'.quoteByKey[at] == w.quoteByKey[at])
    && (forall id | id in w.quotes :: id in w'.quotes && SameQuote(w.quotes[id], w'.quotes[id]))
  }

  /** Only acceptance and expiry change a quote, and an accepted one stays as it is. */
  predicate SameQuote(q: Quote, q': Quote) {
    q' == q.(status := q'.status, payment := q'.payment) && (q.status == Accepted ==> q' == q)
  }

  lemma GrewTransitive(a: World, b: World, c: World)
    requires Grew(a, b) && Grew(b, c)
    ensures Grew(a, c)
  {}

  lemma GrewSame(w: World)
    ensures Grew(w, w)
  {}

  lemma AddQuoteGrows(w: World, id: string, quote: Quote, at: (string, string))
    requires id !in w.quotes && at !in w.quoteByKey
    ensures Grew(w, w.(quotes := w.quotes[id := quote], quoteByKey := w.quoteByKey[at := id]))
  {}

  lemma QuoteGrows(w: World, request: QuoteRequest, reply: Option<ProviderQuote>, now: int, id: string)
    ensures Grew(w, CreateQuote(w, request, reply, now, id).0)
  {
    var w' := CreateQuote(w, request, reply, now, id).0;
    if w' == w {
      GrewSame(w);
    } else {
      AddQuoteGrows(w, id, w'.quotes[id], (request.tenant, request.key));
    }
  }

  lemma ChangeQuoteGrows(w: World, id: string, quote: Quote)
    requires id in w.quotes && w.quotes[id].status != Accepted && SameQuote(w.quotes[id], quote)
    ensures Grew(w, w.(quotes := w.quotes[id := quote]))
  {}

  lemma InsertGrows(w: World, p: Id, identity: Identity, amount: int, currency: string, key: string, quote: Option<string>, seed: nat)
    requires p !in w.rows && key !in w.paymentByKey
    requires quote.Some? ==> quote.value in w.quotes && w.quotes[quote.value].status != Accepted
    ensures Grew(w, Insert(w, p, identity, amount, currency, key, quote, seed))
  {}

  lemma AcceptGrows(w: World, request: CreateRequest, quote: string, now: int, p: Id, seed: nat)
    ensures Grew(w, AcceptQuote(w, request, quote, now, p, seed).0)
  {
    GrewSame(w);
    if quote in w.quotes && w.quotes[quote].status != Accepted {
      ChangeQuoteGrows(w, quote, w.quotes[quote].(status := Expired));
      if request.key !in w.paymentByKey && p !in w.rows {
        InsertGrows(w, p, Identity(request.tenant, request.reference), request.amount, request.currency, request.key, Some(quote), seed);
      }
    }
  }

  lemma RefundGrows(w: World, request: RefundRequest, now: int, p: Id, seed: nat)
    ensures Grew(w, CreateRefund(w, request, now, p, seed).0)
  {
    var w' := CreateRefund(w, request, now, p, seed).0;
    if w' == w {
      GrewSame(w);
    } else {
      var quote := if request.quote == "" then None else Some(request.quote);
      InsertGrows(w, p, w'.identities[p], request.amount, w.rows[request.payment].currency, request.key, quote, seed);
    }
  }

  lemma PaymentGrows(t: Timeouts, w: World, p: Id, step: Step)
    ensures Grew(w, StepWorld(t, w, PaymentStep(p, step)))
  {
    if p in w.rows { StepKeepsTerms(t, w.rows[p], step); }
  }

  lemma OpenGrows(w: World, p: Id, amount: int, currency: string, key: string, providerQuote: string)
    ensures Grew(w, OpenPayin(w, p, amount, currency, key, providerQuote))
  {
    GrewSame(w);
    var w' := OpenPayin(w, p, amount, currency, key, providerQuote);
    if w' != w { AddKeyGrows(w, p, key, w'.payins); }
  }

  lemma AddKeyGrows(w: World, p: Id, key: string, payins: map<Id, PayinProtocol.Payin>)
    requires key !in w.paymentByKey
    ensures Grew(w, w.(payins := payins, paymentByKey := w.paymentByKey[key := p]))
  {}

  lemma PayinGrows(w: World, payins: map<Id, PayinProtocol.Payin>)
    ensures Grew(w, w.(payins := payins))
  {}

  lemma AcceptStepGrows(t: Timeouts, w: World, s: WorldStep)
    requires s.AcceptStep?
    ensures Grew(w, StepWorld(t, w, s))
  {
    GrewSame(w);
    AcceptGrows(w, s.request, s.quote, s.now, s.p, s.seed);
  }

  lemma StepGrows(t: Timeouts, w: World, s: WorldStep)
    ensures Grew(w, StepWorld(t, w, s))
  {
    match s
    case QuoteStep(request, reply, now, id) => QuoteGrows(w, request, reply, now, id);
    case AcceptStep(_, _, _, _, _) => AcceptStepGrows(t, w, s);
    case RefundStep(request, now, p, seed) => RefundGrows(w, request, now, p, seed);
    case PaymentStep(p, step) => PaymentGrows(t, w, p, step);
    case OpenStep(p, amount, currency, key, providerQuote) => OpenGrows(w, p, amount, currency, key, providerQuote);
    case PayinStep(p, s) => PayinGrows(w, StepWorld(t, w, PayinStep(p, s)).payins);
  }

  lemma {:induction false} RunGrows(t: Timeouts, w: World, steps: seq<WorldStep>)
    ensures Grew(w, RunWorld(t, w, steps))
    decreases |steps|
  {
    if steps != [] {
      StepGrows(t, w, steps[0]);
      RunGrows(t, StepWorld(t, w, steps[0]), steps[1..]);
      GrewTransitive(w, StepWorld(t, w, steps[0]), RunWorld(t, w, steps));
    }
  }

  /** The quote that a creation has obtained: the one named, or the one stored for its key on
      the requested terms, whatever currencies the provider named. */
  predicate Obtained(w: World, request: CreateRequest, quote: string) {
    if request.quote != "" then quote == request.quote
    else
      var implicit := request.ImplicitQuote();
      && (implicit.tenant, implicit.key) in w.quoteByKey && w.quoteByKey[(implicit.tenant, implicit.key)] == quote
      && implicit.Valid() && quote in w.quotes
      && Answers(w.quotes[quote].(sourceCurrency := request.currency, destinationCurrency := request.currency), implicit)
  }

  lemma QuoteObtained(w: World, request: CreateRequest, reply: Option<ProviderQuote>, now: int, quote: string)
    requires WorldInv(w) && ObtainQuote(w, request, reply, now, quote).1.Some?
    ensures var (quoted, id) := ObtainQuote(w, request, reply, now, quote); WorldInv(quoted) && Obtained(quoted, request, id.value)
  {
    if request.quote == "" { QuoteStepKeeps(w, request.ImplicitQuote(), reply, now, quote); }
  }

  /** Payment p answers the request through the accepted quote. */
  predicate CreatedFor(w: World, request: CreateRequest, quote: string, p: Id) {
    && request.key in w.paymentByKey && w.paymentByKey[request.key] == p
    && RequestMatches(w, p, request, quote) && Obtained(w, request, quote)
    && quote in w.quotes && w.quotes[quote].status == Accepted && w.quotes[quote].sourceCurrency == request.currency
  }

  lemma AcceptCreates(w: World, request: CreateRequest, quote: string, now: int, p: Id, seed: nat)
    requires WorldInv(w) && AcceptQuote(w, request, quote, now, p, seed).1.Some? && Obtained(w, request, quote)
    ensures var (w', made) := AcceptQuote(w, request, quote, now, p, seed); CreatedFor(w', request, quote, made.value)
  {
    assert QuoteFits(w, quote);
    if request.key in w.paymentByKey {
      assert PaymentFits(w, w.paymentByKey[request.key]);
    }
  }

  lemma CreatedForLasts(w: World, w': World, request: CreateRequest, quote: string, p: Id)
    requires CreatedFor(w, request, quote, p) && Grew(w, w')
    ensures CreatedFor(w', request, quote, p) && w'.quotes[quote] == w.quotes[quote]
  {}

  lemma ObtainedLasts(w: World, w': World, request: CreateRequest, quote: string)
    requires Obtained(w, request, quote) && Grew(w, w')
    ensures Obtained(w', request, quote)
  {}

  /** The request named its quote, or the provider returned the destination currency that was
      asked for. */
  predicate Echoed(w: World, request: CreateRequest, quote: string) {
    request.quote != "" || (quote in w.quotes && w.quotes[quote].destinationCurrency == request.currency)
  }

  lemma RepeatedCreation(w: World, request: CreateRequest, quote: string, made: Id, reply: Option<ProviderQuote>, now: int, quote': string, p: Id, seed: nat)
    requires CreatedFor(w, request, quote, made)
    ensures ObtainQuote(w, request, reply, now, quote') == (w, if Echoed(w, request, quote) then Some(quote) else None)
    ensures AcceptQuote(w, request, quote, now, p, seed) == (w, Some(made))
  {}

  /** Creation in its two transactions, with anything between them: obtaining the quote, and
      accepting it into a payment. Repeating them later, again with anything before and
      between, changes nothing; the quote is found again, and with it the same payment,
      exactly when the request named it or the provider echoed the requested currency. */
  lemma CreationIsIdempotent(t: Timeouts, before: seq<WorldStep>, request: CreateRequest, reply: Option<ProviderQuote>, now: int, quote: string,
                             between: seq<WorldStep>, now1: int, p: Id, seed: nat,
                             after: seq<WorldStep>, reply': Option<ProviderQuote>, now': int, quote': string,
                             pause: seq<WorldStep>, now1': int, p': Id, seed': nat)
    requires t.Valid() && ObtainQuote(RunWorld(t, EMPTY, before), request, reply, now, quote).1.Some?
    requires var (quoted, id) := ObtainQuote(RunWorld(t, EMPTY, before), request, reply, now, quote);
      AcceptQuote(RunWorld(t, quoted, between), request, id.value, now1, p, seed).1.Some?
    ensures var (quoted, id) := ObtainQuote(RunWorld(t, EMPTY, before), request, reply, now, quote);
      var (w, made) := AcceptQuote(RunWorld(t, quoted, between), request, id.value, now1, p, seed);
      var later := RunWorld(t, w, after);
      var repeated := RunWorld(t, later, pause);
      && ObtainQuote(later, request, reply', now', quote') == (later, if Echoed(w, request, id.value) then id else None)
      && AcceptQuote(repeated, request, id.value, now1', p', seed') == (repeated, made)
  {
    Reachable(t, before);
    var (quoted, id) := ObtainQuote(RunWorld(t, EMPTY, before), request, reply, now, quote);
    QuoteObtained(RunWorld(t, EMPTY, before), request, reply, now, quote);
    RunWorldKeeps(t, quoted, between);
    RunGrows(t, quoted, between);
    ObtainedLasts(quoted, RunWorld(t, quoted, between), request, id.value);
    var (w, made) := AcceptQuote(RunWorld(t, quoted, between), request, id.value, now1, p, seed);
    AcceptCreates(RunWorld(t, quoted, between), request, id.value, now1, p, seed);
    CreationLasts(t, w, request, id.value, made.value, after, reply', now', quote');
    var later := RunWorld(t, w, after);
    CreationLasts(t, later, request, id.value, made.value, pause, reply', now', quote');
    RepeatedCreation(RunWorld(t, later, pause), request, id.value, made.value, reply', now1', quote', p', seed');
  }

  lemma CreationLasts(t: Timeouts, w: World, request: CreateRequest, quote: string, made: Id, steps: seq<WorldStep>, reply: Option<ProviderQuote>, now: int, quote': string)
    requires CreatedFor(w, request, quote, made)
    ensures var later := RunWorld(t, w, steps);
      CreatedFor(later, request, quote, made) && ObtainQuote(later, request, reply, now, quote') == (later, if Echoed(w, request, quote) then Some(quote) else None)
  {
    RunGrows(t, w, steps);
    CreatedForLasts(w, RunWorld(t, w, steps), request, quote, made);
    RepeatedCreation(RunWorld(t, w, steps), request, quote, made, reply, now, quote', "", 0);
  }

  // ---- A provider that does not echo ------------------------------------------

  const DIRECT := CreateRequest("t", "k", "r", "USD", 100, "", "f", "a", "d")
  const CONVERTED := ProviderQuote("pq", "USD", "EUR", 100, 90, 10)

  lemma Trimmed(s: string)
    requires s != "" && !IsSpace(s[0]) && !IsSpace(s[|s| - 1])
    ensures TrimSpace(s) == s
  {}

  lemma TextsAreTrimmed()
    ensures TrimSpace(DIRECT.tenant) == "t" && TrimSpace(DIRECT.key) == "k" && TrimSpace(DIRECT.reference) == "r"
    ensures TrimSpace(DIRECT.fundingMethod) == "f" && TrimSpace(DIRECT.sourceAccount) == "a" && TrimSpace(DIRECT.destinationInstrument) == "d"
  {
    Trimmed("t");
    Trimmed("k");
    Trimmed("r");
    Trimmed("f");
    Trimmed("a");
    Trimmed("d");
  }

  lemma DirectIsValid()
    ensures DIRECT.Valid() && DIRECT.ImplicitQuote().Valid()
  {
    TextsAreTrimmed();
    Trimmed("USD");
  }

  /** A direct payout whose provider answers with another currency is created once, and its
      repetition is refused as a conflict. */
  lemma UnechoedCreationConflicts()
    ensures var (w, made) := CreatePayout(EMPTY, DIRECT, Some(CONVERTED), 0, "q", "p", 0);
      made == Some("p") && CreatePayout(w, DIRECT, Some(CONVERTED), 0, "q2", "p2", 0) == (w, None)
  {
    DirectIsValid();
    var (quoted, id) := ObtainQuote(EMPTY, DIRECT, Some(CONVERTED), 0, "q");
    assert id == Some("q") && quoted.quotes["q"].destinationCurrency == "EUR";
    EmptyInv();
    QuoteObtained(EMPTY, DIRECT, Some(CONVERTED), 0, "q");
    AcceptCreates(quoted, DIRECT, "q", 0, "p", 0);
    var w := AcceptQuote(quoted, DIRECT, "q", 0, "p", 0).0;
    RepeatedCreation(w, DIRECT, "q", "p", Some(CONVERTED), 0, "q2", "p2", 0);
  }

  // ---- Pay-ins ----------------------------------------------------------------

  lemma QuoteLeavesPayins(w: World, request: QuoteRequest, reply: Option<ProviderQuote>, now: int, id: string)
    ensures CreateQuote(w, request, reply, now, id).0.payins == w.payins
  {}

  lemma AcceptLeavesPayins(w: World, request: CreateRequest, quote: string, now: int, p: Id, seed: nat)
    ensures AcceptQuote(w, request, quote, now, p, seed).0.payins == w.payins
  {}

  lemma RefundLeavesPayins(w: World, request: RefundRequest, now: int, p: Id, seed: nat)
    ensures CreateRefund(w, request, now, p, seed).0.payins == w.payins
  {}

  predicate Kept(payins: map<Id, PayinProtocol.Payin>, payins': map<Id, PayinProtocol.Payin>, p: Id) {
    p in payins && p in payins' && payins'[p].status == payins[p].status && payins'[p].journals == payins[p].journals
  }

  lemma StepKeepsPayin(w: World, q: Id, s: PayinProtocol.Step, p: Id)
    requires WorldInv(w) && q in w.payins && p in w.payins && w.payins[p].status == Succeeded
    ensures Kept(w.payins, w.payins[q := PayinProtocol.Perform(w.payins[q], Settled(w.payins, q, s))], p)
  {
    assert PayinFits(w, p);
    if q == p { PayinTheorems.StepKeepsSucceeded(w.payins[p], Settled(w.payins, p, s)); }
  }

  lemma PayinStepKeepsSuccess(t: Timeouts, w: World, s: WorldStep, p: Id)
    requires WorldInv(w) && p in w.payins && w.payins[p].status == Succeeded
    ensures Kept(w.payins, StepWorld(t, w, s).payins, p)
  {
    match s
    case QuoteStep(request, reply, now, id) => QuoteLeavesPayins(w, request, reply, now, id);
    case AcceptStep(request, quote, now, q, seed) => AcceptLeavesPayins(w, request, quote, now, q, seed);
    case RefundStep(request, now, q, seed) => RefundLeavesPayins(w, request, now, q, seed);
    case PayinStep(q, step) => if q in w.payins { StepKeepsPayin(w, q, step, p); }
    case _ =>
  }

  /** A pay-in that has succeeded stays so, with its one journal, whatever else the database
      goes through. */
  lemma {:induction false} SucceededPayinsStay(t: Timeouts, w: World, steps: seq<WorldStep>, p: Id)
    requires t.Valid() && WorldInv(w) && p in w.payins && w.payins[p].status == Succeeded
    ensures var w' := RunWorld(t, w, steps); p in w'.payins && w'.payins[p].status == Succeeded && w'.payins[p].journals == [PayinJournal]
    decreases |steps|
  {
    if steps == [] {
      assert PayinFits(w, p);
    } else {
      PayinStepKeepsSuccess(t, w, steps[0], p);
      StepWorldKeeps(t, w, steps[0]);
      SucceededPayinsStay(t, StepWorld(t, w, steps[0]), steps[1..], p);
    }
  }

  /** In every reachable database different pay-ins hold different provider references, and
      no payment is both a payout and a pay-in. */
  lemma PayinReferencesDiffer(t: Timeouts, steps: seq<WorldStep>, p: Id, q: Id)
    requires t.Valid() && p in RunWorld(t, EMPTY, steps).payins && q in RunWorld(t, EMPTY, steps).payins
    ensures var w := RunWorld(t, EMPTY, steps);
      && p !in w.rows
      && (w.payins[p].reference == w.payins[q].reference != "" ==> p == q)
      && (w.payins[p].key == w.payins[q].key ==> p == q)
  {
    Reachable(t, steps);
    var w := RunWorld(t, EMPTY, steps);
    assert PayinFits(w, p) && PayinFits(w, q);
  }
}
