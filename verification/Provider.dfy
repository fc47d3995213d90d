/** The boundary to settlement providers: what a request and an answer look like, and a
    provider that keeps one payout per idempotency key. */
module Provider {
  import opened PaymentCore

  datatype ExecutionStatus = ExecutionPending | ExecutionOnHold | ExecutionSucceeded | ExecutionFailed

  datatype ExecutionResult = ExecutionResult(reference: string, status: ExecutionStatus, code: string, message: string) {
    predicate Valid() {
      reference != "" && (status == ExecutionFailed ==> code != "")
    }
  }

  datatype ExecuteRequest = ExecuteRequest(key: string, providerQuote: string) {
    predicate Valid() {
      key != "" && providerQuote != ""
    }
  }

  /** What a provider call can come back with: an answer, a typed provider error, or
      any other error. */
  datatype ProviderReply =
    | Answer(result: ExecutionResult)
    | Refusal(message: string, code: string, retryable: bool)
    | Fault

  /** What the quote provider answers. */
  datatype ProviderQuote = ProviderQuote(
    id: string, sourceCurrency: string, destinationCurrency: string, senderAmount: int, receiverAmount: int, expires: int)

  // ---- An idempotent provider -------------------------------------------------

  type Payouts = map<string, ExecutionResult>

  /** One call; `offered` is the outcome a new payout would get. */
  function Serve(held: Payouts, request: ExecuteRequest, offered: ExecutionResult): (Payouts, Option<ExecutionResult>) {
    if !request.Valid() then (held, None)
    else if request.key in held then (held, Some(held[request.key]))
    else
      var named := if offered.reference == "" then offered.(reference := "mock_" + request.key) else offered;
      if named.Valid() then (held[request.key := named], Some(named)) else (held, None)
  }

  function ServeAll(held: Payouts, calls: seq<(ExecuteRequest, ExecutionResult)>): Payouts {
    if |calls| == 0 then held
    else
      var last := calls[|calls| - 1];
      Serve(ServeAll(held, calls[..|calls| - 1]), last.0, last.1).0
  }

  function AnswerAt(calls: seq<(ExecuteRequest, ExecutionResult)>, i: nat): Option<ExecutionResult>
    requires i < |calls|
  {
    Serve(ServeAll(map[], calls[..i]), calls[i].0, calls[i].1).1
  }

  lemma {:induction false} PayoutsStay(calls: seq<(ExecuteRequest, ExecutionResult)>, i: nat, j: nat, key: string)
    requires i <= j <= |calls| && key in ServeAll(map[], calls[..i])
    ensures key in ServeAll(map[], calls[..j])
    ensures ServeAll(map[], calls[..j])[key] == ServeAll(map[], calls[..i])[key]
    decreases j
  {
    if i < j {
      PayoutsStay(calls, i, j - 1, key);
      assert calls[..j][..j - 1] == calls[..j - 1];
    }
  }

  /** Once a key has been answered, every later call with that key gets the same answer,
      whatever outcome the provider would offer by then. */
  lemma RepeatedCallsAgree(calls: seq<(ExecuteRequest, ExecutionResult)>, i: nat, j: nat)
    requires i < j < |calls| && calls[i].0.key == calls[j].0.key && calls[j].0.Valid()
    requires AnswerAt(calls, i).Some?
    ensures AnswerAt(calls, j) == AnswerAt(calls, i)
  {
    assert calls[..i + 1][..i] == calls[..i];
    PayoutsStay(calls, i + 1, j, calls[i].0.key);
  }

  /** The provider holds payouts only for keys it was called with. */
  lemma {:induction false} PayoutsWereRequested(calls: seq<(ExecuteRequest, ExecutionResult)>, key: string) returns (i: nat)
    requires key in ServeAll(map[], calls)
    ensures i < |calls| && calls[i].0.key == key
  {
    var last := |calls| - 1;
    if calls[last].0.key == key {
      i := last;
    } else {
      i := PayoutsWereRequested(calls[..last], key);
    }
  }

  class MockProvider {
    var result: ExecutionResult
    var resultsByAmount: map<int, ExecutionResult>
    var amountsByQuote: map<string, int>
    var seen: Payouts

    constructor (result: ExecutionResult)
      ensures this.result == result && seen == map[] && resultsByAmount == map[] && amountsByQuote == map[]
    {
      this.result, resultsByAmount, amountsByQuote, seen := result, map[], map[], map[];
    }

    /** A quote that was never issued here has amount 0. */
    function Offered(request: ExecuteRequest): ExecutionResult
      reads this
    {
      var amount := if request.providerQuote in amountsByQuote then amountsByQuote[request.providerQuote] else 0;
      if amount in resultsByAmount then resultsByAmount[amount] else result
    }

    method ExecutePayout(request: ExecuteRequest) returns (answer: Option<ExecutionResult>)
      modifies `seen
      ensures (seen, answer) == Serve(old(seen), request, Offered(request))
    {
      if !request.Valid() {
        return None;
      }
      if request.key in seen {
        return Some(seen[request.key]);
      }
      var outcome := result;
      var amount := if request.providerQuote in amountsByQuote then amountsByQuote[request.providerQuote] else 0;
      if amount in resultsByAmount {
        outcome := resultsByAmount[amount];
      }
      if outcome.reference == "" {
        outcome := outcome.(reference := "mock_" + request.key);
      }
      if !outcome.Valid() {
        return None;
      }
      seen := seen[request.key := outcome];
      answer := Some(outcome);
    }

    /** Issuing a quote changes what later calls are offered, never a payout already made. The
        quote names the key, echoes the requested terms at par and is open for five minutes. */
    method CreatePayoutQuote(key: string, sourceCurrency: string, destinationCurrency: string, amount: int, now: int) returns (quote: Option<ProviderQuote>)
      modifies `amountsByQuote
      ensures quote.Some? <==> key != "" && amount > 0
      ensures quote.Some? ==>
        && quote.value.id == "qu_" + key
        && quote.value.sourceCurrency == sourceCurrency && quote.value.destinationCurrency == destinationCurrency
        && quote.value.senderAmount == amount == quote.value.receiverAmount
        && quote.value.expires - now == 5 * 60 * 1_000_000_000
      ensures amountsByQuote == if quote.Some? then old(amountsByQuote)[quote.value.id := amount] else old(amountsByQuote)
    {
      if key == "" || amount <= 0 {
        return None;
      }
      var id := "qu_" + key;
      amountsByQuote := amountsByQuote[id := amount];
      quote := Some(ProviderQuote(id, sourceCurrency, destinationCurrency, amount, amount, now + 5 * 60 * 1_000_000_000));
    }
  }
}
