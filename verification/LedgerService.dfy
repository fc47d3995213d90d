/** Ledger postings as transactions on the database. */
module LedgerService {
  import opened PaymentCore
  import opened Ledger
  import opened PayoutSaga
  import opened PayoutProtocol
  import opened Store

  /** One journal moves nothing in or out of the two accounts together. */
  lemma PairBalances(table: seq<(Id, Entry)>, p: Id, kind: JournalKind, amount: int, currency: string, of: string)
    ensures var lines := Lines(kind, amount, currency);
      Total(table + [(p, lines[0])] + [(p, lines[1])], of) == Total(table, of)
  {
    var lines := Lines(kind, amount, currency);
    TotalInsert(table, p, lines[0], of);
    TotalInsert(table + [(p, lines[0])], p, lines[1], of);
  }

  /** The loop that inserts the debit and the credit line of a journal. */
  method InsertLines(db: Database, p: Id, kind: JournalKind, amount: int, currency: string)
    requires db.Valid() && p in db.rows
    modifies db`rows, db`entries
    ensures db.Valid()
    ensures db.rows == old(db.rows)[p := old(db.rows[p]).(entries := old(db.rows[p]).entries + Lines(kind, amount, currency))]
  {
    ghost var table, row, lines := db.entries, db.rows[p], Lines(kind, amount, currency);
    var sides := [(DebitAccount(kind), Debit), (CreditAccount(kind), Credit)];
    assert row.entries + lines[..0] == row.entries;
    for i := 0 to 2
      invariant db.Linked()
      invariant db.rows == old(db.rows)[p := row.(entries := row.entries + lines[..i])]
      invariant db.entries == if i == 0 then table else if i == 1 then table + [(p, lines[0])] else table + [(p, lines[0])] + [(p, lines[1])]
    {
      assert lines[..i + 1] == lines[..i] + [lines[i]];
      assert row.entries + lines[..i] + [lines[i]] == row.entries + lines[..i + 1];
      db.InsertEntry(p, Entry(kind, sides[i].0, sides[i].1, amount, currency));
    }
    assert lines[..2] == lines;
    forall of ensures Total(db.entries, of) == 0 { PairBalances(table, p, kind, amount, currency, of); assert Total(table, of) == 0; }
  }

  method Allowed(status: PaymentStatus, from: seq<PaymentStatus>) returns (allowed: bool)
    ensures allowed == (status in from)
  {
    allowed := false;
    for i := 0 to |from|
      invariant allowed == (status in from[..i])
    {
      assert from[..i + 1] == from[..i] + [from[i]];
      allowed := allowed || status == from[i];
    }
    assert from[..|from|] == from;
  }

  /** The writes of postFrom; a journal that is already there ends them early. */
  method WritePosting(db: Database, p: Id, to: PaymentStatus, kind: JournalKind, updateState: bool)
    requires db.Valid() && p in db.rows && !(updateState && db.rows[p].status == to)
    modifies db`rows, db`payments, db`journals, db`entries, db`timeline
    ensures db.Valid()
    ensures db.rows == old(db.rows)[p := Post(old(db.rows[p]), old(db.rows[p]).status, to, kind, updateState).row]
  {
    assert db.Fits(p);
    var record := db.payments[p];
    if updateState {
      db.UpdateStatus(p, to);
    }
    var inserted := db.InsertJournal(p, kind);
    if inserted {
      InsertLines(db, p, kind, record.amount, record.currency);
      db.InsertTimeline(p, if updateState then to else record.status);
    }
  }

  /** postFrom: false is an error, and then nothing has changed. */
  method PostFrom(db: Database, p: Id, from: seq<PaymentStatus>, to: PaymentStatus, kind: JournalKind, updateState: bool) returns (ok: bool)
    requires db.Valid()
    modifies db`rows, db`payments, db`journals, db`entries, db`timeline
    ensures db.Valid()
    ensures ok <==> p in old(db.rows) && (old(db.rows[p]).status in from || (updateState && old(db.rows[p]).status == to))
    ensures !ok ==> db.rows == old(db.rows)
    ensures ok ==> db.rows == old(db.rows)[p := Post(old(db.rows[p]), old(db.rows[p]).status, to, kind, updateState).row]
  {
    assert db.Fits(p);
    if p !in db.payments {
      return false;
    }
    var status := db.payments[p].status;
    if updateState && status == to {
      return true;
    }
    ok := Allowed(status, from);
    if ok {
      WritePosting(db, p, to, kind, updateState);
    }
  }

  /** The posting functions with one source status. */
  method PostOne(db: Database, p: Id, from: PaymentStatus, to: PaymentStatus, kind: JournalKind, updateState: bool) returns (ok: bool)
    requires db.Valid()
    modifies db`rows, db`payments, db`journals, db`entries, db`timeline
    ensures db.Valid()
    ensures ok <==> p in old(db.rows) && Post(old(db.rows[p]), from, to, kind, updateState).Posted?
    ensures db.rows == if ok then old(db.rows)[p := Post(old(db.rows[p]), from, to, kind, updateState).row] else old(db.rows)
  {
    ok := PostFrom(db, p, [from], to, kind, updateState);
  }

  method ReserveFunds(db: Database, p: Id) returns (ok: bool)
    requires db.Valid()
    modifies db`rows, db`payments, db`journals, db`entries, db`timeline
    ensures db.Valid()
    ensures ok <==> p in old(db.rows) && Reserve(old(db.rows[p])).Posted?
    ensures db.rows == if ok then old(db.rows)[p := Reserve(old(db.rows[p])).row] else old(db.rows)
  {
    ok := PostOne(db, p, Created, Processing, ProcessingJournal, true);
  }

  method ReleaseFunds(db: Database, p: Id) returns (ok: bool)
    requires db.Valid()
    modifies db`rows, db`payments, db`journals, db`entries, db`timeline
    ensures db.Valid()
    ensures ok <==> p in old(db.rows) && Release(old(db.rows[p])).Posted?
    ensures db.rows == if ok then old(db.rows)[p := Release(old(db.rows[p])).row] else old(db.rows)
  {
    ok := PostOne(db, p, Processing, Processing, ReleasedJournal, false);
  }

  method SettlePayment(db: Database, p: Id) returns (ok: bool)
    requires db.Valid()
    modifies db`rows, db`payments, db`journals, db`entries, db`timeline
    ensures db.Valid()
    ensures ok <==> p in old(db.rows) && Settle(old(db.rows[p])).Posted?
    ensures db.rows == if ok then old(db.rows)[p := Settle(old(db.rows[p])).row] else old(db.rows)
  {
    ok := PostOne(db, p, Processing, Succeeded, SucceededJournal, true);
  }

  method ReturnFunds(db: Database, p: Id, svix: string) returns (ok: bool)
    requires db.Valid()
    modifies db`rows, db`journals, db`entries, db`timeline, db`returned
    ensures db.Valid()
    ensures ok <==> p in old(db.rows) && RecordReturn(old(db.rows[p]), svix).Posted?
    ensures db.rows == if ok then old(db.rows)[p := RecordReturn(old(db.rows[p]), svix).row] else old(db.rows)
  {
    assert db.Fits(p);
    if svix == "" || p !in db.payments {
      return false;
    }
    var record := db.payments[p];
    RowsOfIn(db.journals, p, SucceededJournal);
    var settled := (p, SucceededJournal) in db.journals;
    if record.status != Succeeded || !settled {
      return false;
    }
    ok := true;
    var inserted := db.InsertJournal(p, ReturnJournal);
    if !inserted {
      return;
    }
    InsertLines(db, p, ReturnJournal, record.amount, record.currency);
    db.InsertReturn(p, Return(svix, record.amount, record.currency));
    db.InsertTimeline(p, Succeeded);
  }
}
