/** Safety of a payout over every run: any interleaving of deliveries, timeouts, operator
    decisions, provider replies, crashes and webhooks. */
module PayoutTheorems {
  import opened PaymentCore
  import opened Ledger
  import opened PayoutSaga
  import opened Provider
  import opened PayoutProtocol
  import opened PayoutInvariant

  /** r is a payment as creation commits it. */
  ghost predicate Fresh(r: Row) {
    RouteFits(r.amount, r.currency, r.route) && exists id :: r == NewRow(r.amount, r.currency, r.key, r.route, id)
  }

  lemma Reached(t: Timeouts, r0: Row, steps: seq<Step>)
    requires t.Valid() && Fresh(r0)
    ensures RowInv(Run(t, r0, steps))
  {
    var id :| r0 == NewRow(r0.amount, r0.currency, r0.key, r0.route, id);
    NewRowInv(r0.amount, r0.currency, r0.key, r0.route, id);
    RunKeeps(t, r0, steps);
  }

  // ---- Payment, ledger and saga agree -----------------------------------------

  lemma StatusJournalAndSagaAgree(t: Timeouts, r0: Row, steps: seq<Step>)
    requires t.Valid() && Fresh(r0)
    ensures var r := Run(t, r0, steps);
      && (r.status == Succeeded <==> SucceededJournal in r.journals)
      && (r.saga.Some? && r.saga.value.state == SagaCompleted ==> r.status == Succeeded)
      && (r.status == Succeeded ==> r.saga.Some? && r.saga.value.state in {SettlingPayment, SagaCompleted})
      && (r.status == Failed ==> r.saga.Some? && r.saga.value.state in {SagaFailed, Returning, Returned})
  {
    Reached(t, r0, steps);
  }

  predicate Unwind(m: Message) {
    m == Order(LedgerRelease) || m == Order(PaymentFail) || m == Order(PaymentFailReserved) || m == Order(PaymentReturn)
  }

  lemma CommandLogNeverMixes(t: Timeouts, r0: Row, steps: seq<Step>)
    requires t.Valid() && Fresh(r0)
    ensures var r := Run(t, r0, steps);
      && (forall i, j | 0 <= i < |r.outbox| && 0 <= j < |r.outbox| :: r.outbox[i].body == Order(PaymentSettle) ==> !Unwind(r.outbox[j].body))
      && !(SucceededJournal in r.journals && ReleasedJournal in r.journals)
      && (r.saga.Some? ==> r.saga.value.state != ReleasingLedger && r.saga.value.state != LedgerReleased)
  {
    Reached(t, r0, steps);
    var r := Run(t, r0, steps);
    forall i, j | 0 <= i < |r.outbox| && 0 <= j < |r.outbox| && r.outbox[i].body == Order(PaymentSettle)
      ensures !Unwind(r.outbox[j].body)
    {
      BodiesIn(r.outbox, i);
      BodiesIn(r.outbox, j);
    }
  }

  /** An issued payment.settle always commits, whenever it is delivered. */
  lemma SettleIsNeverRefused(t: Timeouts, r0: Row, steps: seq<Step>, i: nat)
    requires t.Valid() && Fresh(r0)
    requires i < |Run(t, r0, steps).outbox| && Run(t, r0, steps).outbox[i].body == Order(PaymentSettle)
    ensures Settle(Run(t, r0, steps)).Posted? && Settle(Run(t, r0, steps)).row.status == Succeeded
  {
    Reached(t, r0, steps);
    BodiesIn(Run(t, r0, steps).outbox, i);
    SettleKeeps(Run(t, r0, steps));
  }

  /** A merchant is never told both outcomes. */
  lemma NoticesNeverContradict(t: Timeouts, r0: Row, steps: seq<Step>, i: nat, j: nat)
    requires t.Valid() && Fresh(r0)
    requires i < |Run(t, r0, steps).outbox| && j < |Run(t, r0, steps).outbox|
    ensures !(Run(t, r0, steps).outbox[i].body == Public(NoticeSucceeded) && Run(t, r0, steps).outbox[j].body == Public(NoticeFailed))
  {
    Reached(t, r0, steps);
    BodiesIn(Run(t, r0, steps).outbox, i);
    BodiesIn(Run(t, r0, steps).outbox, j);
  }

  lemma TimelineFollowsStatus(t: Timeouts, r0: Row, steps: seq<Step>)
    requires t.Valid() && Fresh(r0)
    ensures HistoryFits(Run(t, r0, steps).timeline, Run(t, r0, steps).status)
  {
    Reached(t, r0, steps);
  }

  lemma DeadlineIffExpirable(t: Timeouts, r0: Row, steps: seq<Step>)
    requires t.Valid() && Fresh(r0)
    ensures DeadlineFits(Run(t, r0, steps).saga)
  {
    Reached(t, r0, steps);
  }

  // ---- Money ------------------------------------------------------------------

  /** The payment's funds are parked: reserved and not yet settled or released, or
      returned by the provider after success. */
  predicate Parked(r: Row) {
    || (ProcessingJournal in r.journals && SucceededJournal !in r.journals && ReleasedJournal !in r.journals)
    || ReturnJournal in r.journals
  }

  lemma NetCashOfHistory(journals: seq<JournalKind>, amount: int)
    requires JournalHistory(journals)
    ensures NetCash(journals, amount)
         == if ReturnJournal in journals || (ProcessingJournal in journals && SucceededJournal !in journals && ReleasedJournal !in journals)
            then amount else 0
  {
    var full := [ProcessingJournal, SucceededJournal, ReturnJournal];
    assert NetCash([], amount) == 0;
    assert [ProcessingJournal][..0] == [];
    assert NetCash([ProcessingJournal], amount) == amount;
    assert [ProcessingJournal, ReleasedJournal][..1] == [ProcessingJournal];
    assert [ProcessingJournal, SucceededJournal][..1] == [ProcessingJournal];
    assert full[..2] == [ProcessingJournal, SucceededJournal];
  }

  /** Every journal is one debit and one credit of the payment's amount, so the two
      accounts mirror each other, and cash is held exactly while the funds are parked. */
  lemma LedgerConservesMoney(t: Timeouts, r0: Row, steps: seq<Step>, kind: JournalKind)
    requires t.Valid() && Fresh(r0)
    ensures var r := Run(t, r0, steps);
      && Balance(r.entries, CashOperating, r.currency) == (if Parked(r) then r.amount else 0)
      && Balance(r.entries, SettlementPayable, r.currency) == -Balance(r.entries, CashOperating, r.currency)
      && OfJournal(r.entries, kind) == (if kind in r.journals then Lines(kind, r.amount, r.currency) else [])
  {
    Reached(t, r0, steps);
    var r := Run(t, r0, steps);
    JournalsBalance(r.journals, r.amount, r.currency, CashOperating);
    JournalsBalance(r.journals, r.amount, r.currency, SettlementPayable);
    NetCashOfHistory(r.journals, r.amount);
    JournalLines(r.journals, r.amount, r.currency, kind);
  }

  lemma {:induction false} EntryOfJournal(entries: seq<Entry>, kind: JournalKind, e: Entry)
    requires e in OfJournal(entries, kind)
    ensures e in entries
  {
    if |entries| > 0 {
      var last := |entries| - 1;
      if entries[last] != e {
        EntryOfJournal(entries[..last], kind, e);
      }
    }
  }

  /** Whenever the worker is about to call the provider, policy has approved the payment
      and a reservation of the quoted amount has been posted. */
  lemma ProviderCallsAreApprovedAndFunded(t: Timeouts, r0: Row, steps: seq<Step>)
    requires t.Valid() && Fresh(r0)
    ensures var r := Run(t, r0, steps);
      r.worker.Calling? || r.calls != [] ==>
        && r.route.Some?
        && Event(PolicyApproved) in Bodies(r.outbox)
        && Entry(ProcessingJournal, CashOperating, Debit, r.route.value.senderAmount, r.route.value.currency) in r.entries
        && Entry(ProcessingJournal, SettlementPayable, Credit, r.route.value.senderAmount, r.route.value.currency) in r.entries
  {
    Reached(t, r0, steps);
    var r := Run(t, r0, steps);
    if r.worker.Calling? || r.calls != [] {
      assert Ordered(r, SettlementExecute);
      JournalLines(r.journals, r.amount, r.currency, ProcessingJournal);
      var lines := Lines(ProcessingJournal, r.amount, r.currency);
      assert lines[0] in lines && lines[1] in lines;
      EntryOfJournal(r.entries, ProcessingJournal, lines[0]);
      EntryOfJournal(r.entries, ProcessingJournal, lines[1]);
    }
  }
}
