/** Reconciliation: what a run detects, and what it leaves open. */
module Reconciler {
  import opened PaymentCore
  import opened Ledger
  import opened PayoutSaga
  import opened Provider
  import opened PayoutProtocol
  import opened PayoutInvariant
  import opened PaymentWorld
  import opened WorldTheorems
  import opened Store
  import PayinProtocol
  import PayinTheorems

  /** The text fingerprints "ledger:<journal>", "settlement:<payment>" and "blindpay:<payment>". */
  datatype Fingerprint = LedgerImbalance(journal: (Id, JournalKind)) | SettlementMismatch(settled: Id) | PayoutMismatch(paid: Id)

  /** reconciliation_discrepancies; ids are the fingerprints, and a payment never lacks a name here. */
  datatype Discrepancy = Discrepancy(payment: Id, open: bool, lastSeen: nat)

  datatype Mark = Matched | Exception

  function PaymentOf(f: Fingerprint): Id {
    match f
    case LedgerImbalance(journal) => journal.0
    case SettlementMismatch(p) => p
    case PayoutMismatch(p) => p
  }

  // ---- What counts as a discrepancy -------------------------------------------

  function SideTotal(lines: seq<Entry>, side: Side): int {
    if |lines| == 0 then 0
    else SideTotal(lines[..|lines| - 1], side) + if lines[|lines| - 1].side == side then lines[|lines| - 1].amount else 0
  }

  predicate Imbalanced(lines: seq<Entry>) {
    |lines| == 0 || SideTotal(lines, Debit) != SideTotal(lines, Credit)
  }

  predicate SettlementBroken(status: PaymentStatus, submitted: ExecutionStatus) {
    (status == Succeeded && submitted != ExecutionSucceeded) || (submitted == ExecutionSucceeded && status != Succeeded)
  }

  predicate PayoutBroken(status: PaymentStatus, settlement: SettlementStatus, returned: bool) {
    || (settlement == SettlementCompleted && status != Succeeded)
    || (settlement == SettlementRefunded && !returned)
    || (settlement == SettlementFailed && status != Failed)
  }

  /** A journal as posting leaves it is balanced. */
  lemma PostedLinesBalance(kind: JournalKind, amount: int, currency: string)
    ensures !Imbalanced(Lines(kind, amount, currency))
  {
    var lines := Lines(kind, amount, currency);
    assert lines[..1] == [lines[0]] && lines[..1][..0] == [];
    assert SideTotal([], Debit) == 0 && SideTotal([], Credit) == 0;
    assert SideTotal([lines[0]], Debit) == amount;
    assert SideTotal([lines[0]], Credit) == 0;
  }

  /** No journal of a consistent payment is ever imbalanced. */
  lemma JournalsNeverImbalanced(r: Row, kind: JournalKind)
    requires RowInv(r) && kind in r.journals
    ensures !Imbalanced(OfJournal(r.entries, kind))
  {
    JournalLines(r.journals, r.amount, r.currency, kind);
    PostedLinesBalance(kind, r.amount, r.currency);
  }

  /** Nor is the journal of a consistent pay-in. */
  lemma PayinJournalsNeverImbalanced(p: PayinProtocol.Payin, kind: JournalKind)
    requires PayinTheorems.Inv(p) && kind in p.journals
    ensures !Imbalanced(OfJournal(p.entries, kind))
  {
    JournalLines(p.journals, p.amount, p.currency, kind);
    PostedLinesBalance(kind, p.amount, p.currency);
  }

  /** Some finding names the payment. */
  ghost predicate Names(findings: seq<Fingerprint>, p: Id) {
    exists i :: 0 <= i < |findings| && PaymentOf(findings[i]) == p
  }

  class Reconciliation {
    const db: Database
    // The provider that the stored submissions went to.
    const provider: string
    // payins.reconciliation_status and payouts.reconciliation_status
    var payins: map<Id, Mark>
    var payouts: map<Id, Mark>
    var discrepancies: map<Fingerprint, Discrepancy>
    var runs: nat

    constructor (db: Database, provider: string)
      ensures this.db == db && this.provider == provider && Valid() && discrepancies == map[] && runs == 0
    {
      this.db, this.provider := db, provider;
      payins, payouts, discrepancies, runs := map[], map[], map[], 0;
    }

    /** No discrepancy was last seen by a run still to come. */
    predicate Valid()
      reads `discrepancies, `runs
    {
      forall f | f in discrepancies :: discrepancies[f].lastSeen <= runs
    }

    ghost function Open(): set<Fingerprint>
      reads `discrepancies
    {
      set f | f in discrepancies && discrepancies[f].open
    }

    // ---- Findings ---------------------------------------------------------------

    /** The status of the payment's latest submission; those to BlindPay are left out. */
    function Submitted(p: Id): Option<ExecutionStatus>
      reads db
    {
      if provider == "blindpay" || p !in db.submissions || db.submissions[p] == [] then None
      else Some(db.submissions[p][|db.submissions[p]| - 1].status)
    }

    predicate Detects(f: Fingerprint)
      reads db
    {
      match f
      case LedgerImbalance(journal) => journal in db.journals && Imbalanced(OfJournal(RowsOf(db.entries, journal.0), journal.1))
      case SettlementMismatch(p) => p in db.payments && Submitted(p).Some? && SettlementBroken(db.payments[p].status, Submitted(p).value)
      case PayoutMismatch(p) =>
        && p in db.payments && p in db.payouts
        && PayoutBroken(db.payments[p].status, db.payouts[p].status, exists row :: row in db.returned && row.0 == p)
    }

    method FindImbalances() returns (out: seq<Fingerprint>)
      ensures Distinct(out) && forall f :: f in out <==> f.LedgerImbalance? && Detects(f)
    {
      out := [];
      var rest := set row | row in db.journals;
      while rest != {}
        invariant rest <= (set row | row in db.journals) && Distinct(out)
        invariant forall f :: f in out <==> f.LedgerImbalance? && Detects(f) && f.journal !in rest
        decreases |rest|
      {
        var journal :| journal in rest;
        rest := rest - {journal};
        if Imbalanced(OfJournal(RowsOf(db.entries, journal.0), journal.1)) {
          out := out + [LedgerImbalance(journal)];
        }
      }
    }

    method FindSettlementMismatches() returns (out: seq<Fingerprint>)
      ensures Distinct(out) && forall f :: f in out <==> f.SettlementMismatch? && Detects(f)
    {
      out := [];
      var rest := db.payments.Keys;
      while rest != {}
        invariant rest <= db.payments.Keys && Distinct(out)
        invariant forall f :: f in out <==> f.SettlementMismatch? && Detects(f) && f.settled !in rest
        decreases |rest|
      {
        var p :| p in rest;
        rest := rest - {p};
        var submitted := Submitted(p);
        if submitted.Some? && SettlementBroken(db.payments[p].status, submitted.value) {
          out := out + [SettlementMismatch(p)];
        }
      }
    }

    method FindPayoutMismatches() returns (out: seq<Fingerprint>)
      ensures Distinct(out) && forall f :: f in out <==> f.PayoutMismatch? && Detects(f)
    {
      out := [];
      var rest := db.payouts.Keys;
      while rest != {}
        invariant rest <= db.payouts.Keys && Distinct(out)
        invariant forall f :: f in out <==> f.PayoutMismatch? && Detects(f) && f.paid !in rest
        decreases |rest|
      {
        var p :| p in rest;
        rest := rest - {p};
        var returned := exists row :: row in db.returned && row.0 == p;
        if p in db.payments && PayoutBroken(db.payments[p].status, db.payouts[p].status, returned) {
          out := out + [PayoutMismatch(p)];
        }
      }
    }

    /** find: the three queries in turn. */
    method Find() returns (findings: seq<Fingerprint>)
      ensures Distinct(findings) && forall f :: f in findings <==> Detects(f)
      ensures db.Valid() && WorldInv(db.Snapshot()) ==> forall f | f in findings :: !f.LedgerImbalance?
    {
      var ledger := FindImbalances();
      var settlements := FindSettlementMismatches();
      var mismatches := FindPayoutMismatches();
      forall i | 0 <= i < |settlements| ensures settlements[i] !in ledger { assert settlements[i] in settlements; }
      DistinctConcat(ledger, settlements);
      forall i | 0 <= i < |mismatches| ensures mismatches[i] !in ledger + settlements { assert mismatches[i] in mismatches; }
      DistinctConcat(ledger + settlements, mismatches);
      findings := ledger + settlements + mismatches;
      if db.Valid() && WorldInv(db.Snapshot()) {
        forall f: Fingerprint | f.LedgerImbalance? ensures !Detects(f) { NeverImbalanced(f.journal); }
      }
    }

    lemma NeverImbalanced(journal: (Id, JournalKind))
      requires db.Valid() && WorldInv(db.Snapshot())
      ensures !Detects(LedgerImbalance(journal))
    {
      var p := journal.0;
      assert db.Fits(p) && db.PayinFits(p) && PaymentFits(db.Snapshot(), p) && PayinFits(db.Snapshot(), p);
      RowsOfIn(db.journals, p, journal.1);
      if journal in db.journals {
        if p in db.payins {
          PayinJournalsNeverImbalanced(db.payinRows[p], journal.1);
        } else {
          JournalsNeverImbalanced(db.rows[p], journal.1);
        }
      }
    }

    // ---- Runs -------------------------------------------------------------------

    /** The upsert of one finding, and the exception marks of its payment. */
    method RecordFinding(f: Fingerprint, run: nat)
      modifies `discrepancies, `payins, `payouts
      ensures discrepancies == old(discrepancies)[f := Discrepancy(PaymentOf(f), true, run)]
      ensures payins == if PaymentOf(f) in old(payins) then old(payins)[PaymentOf(f) := Exception] else old(payins)
      ensures payouts == if PaymentOf(f) in old(payouts) then old(payouts)[PaymentOf(f) := Exception] else old(payouts)
    {
      var p := PaymentOf(f);
      discrepancies := discrepancies[f := Discrepancy(p, true, run)];
      if p in payins {
        payins := payins[p := Exception];
      }
      if p in payouts {
        payouts := payouts[p := Exception];
      }
    }

    ghost predicate Marked(marks: map<Id, Mark>, findings: seq<Fingerprint>) {
      forall p | p in marks :: marks[p] == if Names(findings, p) then Exception else Matched
    }

    /** The loop over the findings. */
    method RecordAll(findings: seq<Fingerprint>, run: nat)
      requires Marked(payins, []) && Marked(payouts, [])
      modifies `discrepancies, `payins, `payouts
      ensures payins.Keys == old(payins).Keys && payouts.Keys == old(payouts).Keys
      ensures Marked(payins, findings) && Marked(payouts, findings)
      ensures discrepancies.Keys == old(discrepancies).Keys + Elements(findings)
      ensures forall f | f in discrepancies ::
        discrepancies[f] == if f in findings then Discrepancy(PaymentOf(f), true, run) else old(discrepancies)[f]
    {
      for i := 0 to |findings|
        invariant payins.Keys == old(payins).Keys && payouts.Keys == old(payouts).Keys
        invariant Marked(payins, findings[..i]) && Marked(payouts, findings[..i])
        invariant discrepancies.Keys == old(discrepancies).Keys + Elements(findings[..i])
        invariant forall f | f in discrepancies ::
          discrepancies[f] == if f in findings[..i] then Discrepancy(PaymentOf(f), true, run) else old(discrepancies)[f]
      {
        NamesNext(findings, i);
        RecordFinding(findings[i], run);
      }
      assert findings[..|findings|] == findings;
    }

    lemma NamesNext(findings: seq<Fingerprint>, i: nat)
      requires i < |findings|
      ensures findings[..i + 1] == findings[..i] + [findings[i]]
      ensures forall p :: Names(findings[..i + 1], p) <==> Names(findings[..i], p) || p == PaymentOf(findings[i])
    {
      var longer := findings[..i + 1];
      assert longer[i] == findings[i];
      forall p | Names(findings[..i], p) ensures Names(longer, p) {
        var k :| 0 <= k < i && PaymentOf(findings[..i][k]) == p;
        assert PaymentOf(longer[k]) == p;
      }
      forall p | Names(longer, p) && p != PaymentOf(findings[i]) ensures Names(findings[..i], p) {
        var k :| 0 <= k < i + 1 && PaymentOf(longer[k]) == p;
        assert PaymentOf(findings[..i][k]) == p;
      }
    }

    /** The writes of a run, once the findings are known. */
    method ApplyFindings(findings: seq<Fingerprint>)
      requires Valid() && Distinct(findings)
      modifies `discrepancies, `payins, `payouts, `runs
      ensures Valid() && runs == old(runs) + 1
      ensures Open() == Elements(findings)
      ensures forall f | f in findings :: f in discrepancies && discrepancies[f] == Discrepancy(PaymentOf(f), true, runs)
      ensures payins.Keys == db.payins.Keys && payouts.Keys == db.payouts.Keys
      ensures Marked(payins, findings) && Marked(payouts, findings)
    {
      runs := runs + 1;
      payins := map p | p in db.payins :: Matched;
      payouts := map p | p in db.payouts :: Matched;
      RecordAll(findings, runs);
      CloseUnseen();
    }

    /** RunOnce: afterwards the open discrepancies are exactly what this run found, the
        count is the number of open rows, and every pay-in and payout is marked: as an
        exception iff a finding names its payment. */
    method RunOnce() returns (count: nat)
      requires Valid()
      modifies `discrepancies, `payins, `payouts, `runs
      ensures Valid() && runs == old(runs) + 1
      ensures forall f :: f in Open() <==> Detects(f)
      ensures forall f | f in Open() :: discrepancies[f] == Discrepancy(PaymentOf(f), true, runs)
      ensures count == |Open()|
      ensures payins.Keys == db.payins.Keys && forall p | p in payins :: payins[p] == if Suspect(p) then Exception else Matched
      ensures payouts.Keys == db.payouts.Keys && forall p | p in payouts :: payouts[p] == if Suspect(p) then Exception else Matched
    {
      var findings := Find();
      forall p ensures Names(findings, p) <==> Suspect(p) { NamesDetected(findings, p); }
      ApplyFindings(findings);
      DistinctCount(findings);
      count := |findings|;
    }

    /** Something detected names the payment. */
    ghost predicate Suspect(p: Id)
      reads db
    {
      exists f :: Detects(f) && PaymentOf(f) == p
    }

    lemma NamesDetected(findings: seq<Fingerprint>, p: Id)
      requires forall f :: f in findings <==> Detects(f)
      ensures Names(findings, p) <==> Suspect(p)
    {
      if f :| Detects(f) && PaymentOf(f) == p {
        var i :| 0 <= i < |findings| && findings[i] == f;
        assert PaymentOf(findings[i]) == p;
      }
    }

    /** The single update that resolves whatever this run did not see. */
    method CloseUnseen()
      modifies `discrepancies
      ensures discrepancies.Keys == old(discrepancies).Keys
      ensures forall f | f in discrepancies ::
        discrepancies[f] == if old(discrepancies)[f].lastSeen != runs then old(discrepancies)[f].(open := false) else old(discrepancies)[f]
    {
      discrepancies := map f | f in discrepancies ::
        if discrepancies[f].open && discrepancies[f].lastSeen != runs then discrepancies[f].(open := false) else discrepancies[f];
    }

    /** Resolve: an operator closes one open discrepancy. */
    method Resolve(f: Fingerprint, operator: string, note: string) returns (ok: bool)
      requires Valid()
      modifies `discrepancies
      ensures Valid() && discrepancies.Keys == old(discrepancies).Keys
      ensures ok <==> operator != "" && note != "" && f in old(Open())
      ensures Open() == if ok then old(Open()) - {f} else old(Open())
    {
      if operator == "" || note == "" || f !in discrepancies || !discrepancies[f].open {
        return false;
      }
      discrepancies := discrepancies[f := discrepancies[f].(open := false)];
      ok := true;
    }
  }
}
