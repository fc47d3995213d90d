/** Vocabulary shared by every component: optional values, payment statuses and
    the "rows of one payment" view of a table with a payment_id column. */
module PaymentCore {

  datatype Option<+T> = None | Some(value: T)

  type Id = string

  /** payments.payment_status */
  datatype PaymentStatus = Created | Processing | Succeeded | Failed

  ghost predicate Distinct<T>(s: seq<T>) {
    forall i, j | 0 <= i < j < |s| :: s[i] != s[j]
  }

  function Elements<T(==)>(s: seq<T>): set<T> { set x | x in s }

  lemma {:induction false} DistinctCount<T>(s: seq<T>)
    requires Distinct(s)
    ensures |Elements(s)| == |s|
  {
    if |s| > 0 {
      var n := |s| - 1;
      DistinctCount(s[..n]);
      assert Elements(s) == Elements(s[..n]) + {s[n]};
    }
  }

  lemma DistinctConcat<T>(a: seq<T>, b: seq<T>)
    requires Distinct(a) && Distinct(b) && forall i | 0 <= i < |b| :: b[i] !in a
    ensures Distinct(a + b)
  {}

  lemma ConcatDisjoint<T>(a: seq<T>, b: seq<T>)
    requires Distinct(a + b)
    ensures forall x | x in b :: x !in a
  {
    forall i, j | 0 <= i < |a| && 0 <= j < |b| ensures a[i] != b[j] {
      assert (a + b)[i] == a[i] && (a + b)[|a| + j] == b[j];
    }
  }

  /** The rows of `table` that belong to payment `p`, in insertion order. */
  function RowsOf<T>(table: seq<(Id, T)>, p: Id): seq<T> {
    if |table| == 0 then []
    else
      var last := table[|table| - 1];
      var earlier := RowsOf(table[..|table| - 1], p);
      if last.0 == p then earlier + [last.1] else earlier
  }

  lemma RowsOfInsert<T>(table: seq<(Id, T)>, p: Id, row: T)
    ensures RowsOf(table + [(p, row)], p) == RowsOf(table, p) + [row]
    ensures forall q | q != p :: RowsOf(table + [(p, row)], q) == RowsOf(table, q)
  {
    assert (table + [(p, row)])[..|table|] == table;
  }

  lemma {:induction false} RowsOfIn<T>(table: seq<(Id, T)>, p: Id, row: T)
    ensures row in RowsOf(table, p) <==> (p, row) in table
  {
    if |table| > 0 {
      var last := |table| - 1;
      RowsOfIn(table[..last], p, row);
      assert table == table[..last] + [table[last]];
    }
  }
}
