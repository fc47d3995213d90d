/** Double-entry lines, balances, and what the journals of one payout amount to. */
module Ledger {
  import opened PaymentCore

  datatype Account = CashOperating | SettlementPayable
  datatype Side = Debit | Credit

  /** ledger_journals.event_type */
  datatype JournalKind =
    | ProcessingJournal  // payment.processing: the reservation
    | ReleasedJournal    // payment.released
    | SucceededJournal   // payment.succeeded
    | ReturnJournal      // payment.return.succeeded
    | PayinJournal       // payin.succeeded

  datatype Entry = Entry(journal: JournalKind, account: Account, side: Side, amount: int, currency: string)

  function DebitAccount(kind: JournalKind): Account {
    match kind
    case ProcessingJournal | ReturnJournal | PayinJournal => CashOperating
    case ReleasedJournal | SucceededJournal => SettlementPayable
  }

  function CreditAccount(kind: JournalKind): Account {
    match kind
    case ProcessingJournal | ReturnJournal | PayinJournal => SettlementPayable
    case ReleasedJournal | SucceededJournal => CashOperating
  }

  /** The two lines that one journal inserts. */
  function Lines(kind: JournalKind, amount: int, currency: string): seq<Entry> {
    [Entry(kind, DebitAccount(kind), Debit, amount, currency),
     Entry(kind, CreditAccount(kind), Credit, amount, currency)]
  }

  function AllLines(journals: seq<JournalKind>, amount: int, currency: string): seq<Entry> {
    if |journals| == 0 then []
    else AllLines(journals[..|journals| - 1], amount, currency) + Lines(journals[|journals| - 1], amount, currency)
  }

  function Signed(e: Entry): int {
    if e.side == Debit then e.amount else -e.amount
  }

  /** Debits minus credits of one account in one currency. */
  function Balance(entries: seq<Entry>, account: Account, currency: string): int {
    if |entries| == 0 then 0
    else
      var e := entries[|entries| - 1];
      Balance(entries[..|entries| - 1], account, currency)
      + if e.account == account && e.currency == currency then Signed(e) else 0
  }

  function OfJournal(entries: seq<Entry>, kind: JournalKind): seq<Entry> {
    if |entries| == 0 then []
    else
      var e := entries[|entries| - 1];
      OfJournal(entries[..|entries| - 1], kind) + if e.journal == kind then [e] else []
  }

  lemma {:induction false} BalanceConcat(a: seq<Entry>, b: seq<Entry>, account: Account, currency: string)
    ensures Balance(a + b, account, currency) == Balance(a, account, currency) + Balance(b, account, currency)
  {
    if |b| == 0 {
      assert a + b == a;
    } else {
      assert (a + b)[..|a + b| - 1] == a + b[..|b| - 1];
      BalanceConcat(a, b[..|b| - 1], account, currency);
    }
  }

  lemma {:induction false} OfJournalConcat(a: seq<Entry>, b: seq<Entry>, kind: JournalKind)
    ensures OfJournal(a + b, kind) == OfJournal(a, kind) + OfJournal(b, kind)
  {
    if |b| == 0 {
      assert a + b == a;
    } else {
      assert (a + b)[..|a + b| - 1] == a + b[..|b| - 1];
      OfJournalConcat(a, b[..|b| - 1], kind);
    }
  }

  lemma LinesBalance(kind: JournalKind, amount: int, currency: string, account: Account, of: string)
    ensures Balance(Lines(kind, amount, currency), account, of)
         == if of != currency then 0
            else if account == DebitAccount(kind) then amount else -amount
  {
    var lines := Lines(kind, amount, currency);
    assert lines[..1] == [lines[0]] && lines[..1][..0] == [];
    assert Balance(lines[..1], account, of)
        == if lines[0].account == account && currency == of then amount else 0;
  }

  lemma LinesOfJournal(posted: JournalKind, amount: int, currency: string, kind: JournalKind)
    ensures OfJournal(Lines(posted, amount, currency), kind)
         == if posted == kind then Lines(posted, amount, currency) else []
  {
    var lines := Lines(posted, amount, currency);
    assert lines[..1] == [lines[0]] && lines[..1][..0] == [];
    assert OfJournal(lines[..1], kind) == if posted == kind then [lines[0]] else [];
  }

  /** The cash position that the posted journals leave behind. */
  function NetCash(journals: seq<JournalKind>, amount: int): int {
    if |journals| == 0 then 0
    else
      var n := |journals| - 1;
      NetCash(journals[..n], amount) + if DebitAccount(journals[n]) == CashOperating then amount else -amount
  }

  /** Cash holds the net position and the settlement account mirrors it. */
  lemma {:induction false} JournalsBalance(journals: seq<JournalKind>, amount: int, currency: string, account: Account)
    ensures Balance(AllLines(journals, amount, currency), account, currency)
         == if account == CashOperating then NetCash(journals, amount) else -NetCash(journals, amount)
  {
    if |journals| > 0 {
      var n := |journals| - 1;
      JournalsBalance(journals[..n], amount, currency, account);
      BalanceConcat(AllLines(journals[..n], amount, currency), Lines(journals[n], amount, currency), account, currency);
      LinesBalance(journals[n], amount, currency, account, currency);
    }
  }

  /** Every posted journal consists of exactly one debit and one credit line of equal amount. */
  lemma {:induction false} JournalLines(journals: seq<JournalKind>, amount: int, currency: string, kind: JournalKind)
    requires forall i, j | 0 <= i < j < |journals| :: journals[i] != journals[j]
    ensures OfJournal(AllLines(journals, amount, currency), kind)
         == if kind in journals then Lines(kind, amount, currency) else []
  {
    if |journals| > 0 {
      var n := |journals| - 1;
      JournalLines(journals[..n], amount, currency, kind);
      OfJournalConcat(AllLines(journals[..n], amount, currency), Lines(journals[n], amount, currency), kind);
      LinesOfJournal(journals[n], amount, currency, kind);
      if journals[n] == kind {
        assert kind !in journals[..n];
      } else {
        assert kind in journals <==> kind in journals[..n];
      }
    }
  }
}
