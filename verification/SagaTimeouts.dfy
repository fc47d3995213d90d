/** Timeout expiry over all sagas at once: which ones a call claims, and how many calls it
    takes until nothing is overdue. Payout and pay-in coordinators share the shape. */
module SagaTimeouts {
  import opened PaymentCore

  /** The deadlines of the sagas that can expire. */
  type Deadlines = map<Id, int>

  function OverdueSet(due: Deadlines, now: int): set<Id> {
    set p | p in due && due[p] <= now
  }

  predicate NoLater(due: Deadlines, p: Id, q: Id, now: int) {
    p in OverdueSet(due, now) && q in OverdueSet(due, now) && due[p] <= due[q]
  }

  function Least(a: nat, b: nat): nat { if a < b then a else b }

  /** ORDER BY deadline_at LIMIT: as many overdue sagas as the limit allows, earliest first. */
  ghost predicate Claims(due: Deadlines, now: int, limit: nat, claimed: seq<Id>) {
    && Distinct(claimed)
    && (forall i | 0 <= i < |claimed| :: claimed[i] in OverdueSet(due, now))
    && (forall i, j | 0 <= i < j < |claimed| :: NoLater(due, claimed[i], claimed[j], now))
    && |claimed| == Least(limit, |OverdueSet(due, now)|)
    && (forall i, q | 0 <= i < |claimed| && q in OverdueSet(due, now) && q !in claimed :: NoLater(due, claimed[i], q, now))
  }

  method Earliest(due: Deadlines, candidates: set<Id>, now: int) returns (p: Id)
    requires candidates != {} && candidates <= OverdueSet(due, now)
    ensures p in candidates
    ensures forall q | q in candidates :: NoLater(due, p, q, now)
  {
    p :| p in candidates;
    var rest := candidates - {p};
    while rest != {}
      invariant p in candidates && rest <= candidates
      invariant forall q | q in candidates && q !in rest :: NoLater(due, p, q, now)
      decreases |rest|
    {
      var q :| q in rest;
      if due[q] < due[p] {
        p := q;
      }
      rest := rest - {q};
    }
  }

  /** The claim query. */
  method Claim(due: Deadlines, now: int, limit: nat) returns (claimed: seq<Id>)
    ensures Claims(due, now, limit, claimed)
  {
    claimed := [];
    var candidates := OverdueSet(due, now);
    while |claimed| < limit && candidates != {}
      invariant candidates <= OverdueSet(due, now) && |claimed| <= limit
      invariant |claimed| + |candidates| == |OverdueSet(due, now)|
      invariant Distinct(claimed)
      invariant forall i | 0 <= i < |claimed| :: claimed[i] in OverdueSet(due, now) && claimed[i] !in candidates
      invariant forall q | q in OverdueSet(due, now) && q !in candidates :: q in claimed
      invariant forall i, j | 0 <= i < j < |claimed| :: NoLater(due, claimed[i], claimed[j], now)
      invariant forall i, q | 0 <= i < |claimed| && q in candidates :: NoLater(due, claimed[i], q, now)
      decreases |candidates|
    {
      var p := Earliest(due, candidates, now);
      claimed := claimed + [p];
      candidates := candidates - {p};
    }
  }

  // ---- Rounds of expiry -------------------------------------------------------

  /** Every claimed saga leaves with a later deadline or none; the others stay. */
  ghost predicate Postponed(due: Deadlines, after: Deadlines, claimed: seq<Id>, now: int) {
    forall p ::
      && (p in claimed ==> p !in after || after[p] > now)
      && (p !in claimed ==> (p in after <==> p in due) && (p in due ==> after[p] == due[p]))
  }

  lemma PostponedLeavesTheRest(due: Deadlines, after: Deadlines, claimed: seq<Id>, now: int)
    requires Postponed(due, after, claimed, now)
    ensures OverdueSet(after, now) == OverdueSet(due, now) - Elements(claimed)
  {}

  /** Consecutive calls at one clock: dues[k] is what the k-th call finds. */
  ghost predicate Round(dues: seq<Deadlines>, now: int, batch: nat, rounds: seq<seq<Id>>, k: nat) {
    k < |rounds| && k + 1 < |dues| && Claims(dues[k], now, batch, rounds[k]) && Postponed(dues[k], dues[k + 1], rounds[k], now)
  }

  ghost predicate Rounds(dues: seq<Deadlines>, now: int, batch: nat, rounds: seq<seq<Id>>) {
    |dues| == |rounds| + 1 && forall k: nat | k < |rounds| :: Round(dues, now, batch, rounds, k)
  }

  /** Everything claimed by the first k calls, in order. */
  function Claimed(rounds: seq<seq<Id>>, k: nat): seq<Id>
    requires k <= |rounds|
  {
    if k == 0 then [] else Claimed(rounds, k - 1) + rounds[k - 1]
  }

  lemma ClaimedSet(rounds: seq<seq<Id>>, k: nat)
    requires k < |rounds|
    ensures Elements(Claimed(rounds, k + 1)) == Elements(Claimed(rounds, k)) + Elements(rounds[k])
  {}

  /** After any number of calls the claims are distinct, and exactly the sagas that were
      overdue and have not been claimed are overdue, with their deadlines untouched. */
  lemma {:induction false} RoundsPartition(dues: seq<Deadlines>, now: int, batch: nat, rounds: seq<seq<Id>>, k: nat)
    requires Rounds(dues, now, batch, rounds) && k <= |rounds|
    ensures Distinct(Claimed(rounds, k))
    ensures Elements(Claimed(rounds, k)) <= OverdueSet(dues[0], now)
    ensures OverdueSet(dues[k], now) == OverdueSet(dues[0], now) - Elements(Claimed(rounds, k))
    ensures forall p | p in OverdueSet(dues[k], now) :: dues[k][p] == dues[0][p]
    decreases k
  {
    if k == 0 {
      assert Elements(Claimed(rounds, 0)) == {};
    } else {
      RoundsPartition(dues, now, batch, rounds, k - 1);
      assert Round(dues, now, batch, rounds, k - 1);
      RoundKeeps(dues[k - 1], dues[k], now, batch, rounds[k - 1], dues[0], Claimed(rounds, k - 1));
      ClaimedSet(rounds, k - 1);
    }
  }

  lemma RoundKeeps(due: Deadlines, after: Deadlines, now: int, batch: nat, claimed: seq<Id>, start: Deadlines, before: seq<Id>)
    requires Claims(due, now, batch, claimed) && Postponed(due, after, claimed, now)
    requires Distinct(before) && OverdueSet(due, now) == OverdueSet(start, now) - Elements(before)
    requires forall p | p in OverdueSet(due, now) :: due[p] == start[p]
    ensures Distinct(before + claimed)
    ensures Elements(claimed) <= OverdueSet(start, now)
    ensures OverdueSet(after, now) == OverdueSet(start, now) - Elements(before) - Elements(claimed)
    ensures forall p | p in OverdueSet(after, now) :: after[p] == start[p]
  {
    PostponedLeavesTheRest(due, after, claimed, now);
    forall i | 0 <= i < |claimed| ensures claimed[i] !in before { assert claimed[i] in OverdueSet(due, now); }
    DistinctConcat(before, claimed);
    forall p | p in claimed ensures p in OverdueSet(start, now) { assert p in OverdueSet(due, now); }
  }

  lemma LeftOver(all: set<Id>, claimed: set<Id>)
    requires claimed <= all
    ensures |all - claimed| == |all| - |claimed|
  {}

  lemma LeastStep(n: nat, batch: nat, k: nat)
    ensures Least(n * batch, k) + Least(batch, k - Least(n * batch, k)) == Least((n + 1) * batch, k)
  {
    assert (n + 1) * batch == n * batch + batch;
  }

  lemma RoundSize(dues: seq<Deadlines>, now: int, batch: nat, rounds: seq<seq<Id>>, k: nat)
    requires Rounds(dues, now, batch, rounds) && k < |rounds|
    ensures |Claimed(rounds, k)| <= |OverdueSet(dues[0], now)|
    ensures |rounds[k]| == Least(batch, |OverdueSet(dues[0], now)| - |Claimed(rounds, k)|)
  {
    RoundsPartition(dues, now, batch, rounds, k);
    DistinctCount(Claimed(rounds, k));
    LeftOver(OverdueSet(dues[0], now), Elements(Claimed(rounds, k)));
    assert Round(dues, now, batch, rounds, k);
  }

  /** Full batches as long as they last. */
  lemma {:induction false} RoundsCount(dues: seq<Deadlines>, now: int, batch: nat, rounds: seq<seq<Id>>, k: nat)
    requires Rounds(dues, now, batch, rounds) && k <= |rounds|
    ensures |Claimed(rounds, k)| == Least(k * batch, |OverdueSet(dues[0], now)|)
    decreases k
  {
    if k > 0 {
      RoundsCount(dues, now, batch, rounds, k - 1);
      RoundSize(dues, now, batch, rounds, k - 1);
      LeastStep(k - 1, batch, |OverdueSet(dues[0], now)|);
    }
  }

  function RoundsNeeded(count: nat, batch: nat): nat
    requires batch > 0
  {
    (count + batch - 1) / batch
  }

  lemma MultiplesGrow(a: nat, b: nat, batch: nat)
    requires a <= b
    ensures a * batch <= b * batch
  {
    assert b * batch == a * batch + (b - a) * batch;
  }

  lemma DrainedIff(n: nat, batch: nat, count: nat)
    requires batch > 0
    ensures Least(n * batch, count) == count <==> n >= RoundsNeeded(count, batch)
  {
    var needed := RoundsNeeded(count, batch);
    assert needed * batch <= count + batch - 1 < needed * batch + batch;
    if n >= needed {
      MultiplesGrow(needed, n, batch);
    } else {
      MultiplesGrow(n + 1, needed, batch);
      assert (n + 1) * batch == n * batch + batch;
    }
  }

  /** At a fixed clock, k overdue sagas drain in exactly ceil(k / batch) calls, each saga
      being claimed exactly once. */
  lemma SagasDrain(dues: seq<Deadlines>, now: int, batch: nat, rounds: seq<seq<Id>>)
    requires batch > 0 && Rounds(dues, now, batch, rounds)
    ensures OverdueSet(dues[|rounds|], now) == {} <==> |rounds| >= RoundsNeeded(|OverdueSet(dues[0], now)|, batch)
    ensures |rounds| >= RoundsNeeded(|OverdueSet(dues[0], now)|, batch) ==>
      Distinct(Claimed(rounds, |rounds|)) && Elements(Claimed(rounds, |rounds|)) == OverdueSet(dues[0], now)
  {
    var all, claimed := OverdueSet(dues[0], now), Elements(Claimed(rounds, |rounds|));
    RoundsPartition(dues, now, batch, rounds, |rounds|);
    RoundsCount(dues, now, batch, rounds, |rounds|);
    DistinctCount(Claimed(rounds, |rounds|));
    LeftOver(all, claimed);
    DrainedIff(|rounds|, batch, |all|);
    assert all - claimed == {} <==> |all - claimed| == 0;
    assert all - claimed == {} ==> claimed == all;
  }

  /** Within one call: its claims are ordered, and what it leaves overdue is no earlier. */
  lemma RoundFollows(dues: seq<Deadlines>, now: int, batch: nat, rounds: seq<seq<Id>>, k: nat, i: nat, q: Id)
    requires Rounds(dues, now, batch, rounds) && k < |rounds| && i < |rounds[k]|
    requires q in OverdueSet(dues[k], now) && (q in rounds[k] ==> q in rounds[k][i + 1..])
    ensures NoLater(dues[0], rounds[k][i], q, now)
  {
    assert Round(dues, now, batch, rounds, k);
    RoundsPartition(dues, now, batch, rounds, k);
    assert rounds[k][i] in OverdueSet(dues[k], now);
    if q in rounds[k] {
      var j :| i + 1 <= j < |rounds[k]| && rounds[k][j] == q;
      assert NoLater(dues[k], rounds[k][i], rounds[k][j], now);
    } else {
      assert NoLater(dues[k], rounds[k][i], q, now);
    }
  }

  /** Whatever is still overdue after k calls is no earlier than what they claimed. */
  lemma {:induction false} OverdueComesLater(dues: seq<Deadlines>, now: int, batch: nat, rounds: seq<seq<Id>>, k: nat, i: nat, q: Id)
    requires Rounds(dues, now, batch, rounds) && k <= |rounds| && i < |Claimed(rounds, k)| && q in OverdueSet(dues[k], now)
    ensures NoLater(dues[0], Claimed(rounds, k)[i], q, now)
    decreases k
  {
    var n := |Claimed(rounds, k - 1)|;
    StillOverdue(dues, now, batch, rounds, k - 1, q);
    if i < n {
      OverdueComesLater(dues, now, batch, rounds, k - 1, i, q);
    } else {
      RoundFollows(dues, now, batch, rounds, k - 1, i - n, q);
    }
  }

  lemma StillOverdue(dues: seq<Deadlines>, now: int, batch: nat, rounds: seq<seq<Id>>, k: nat, q: Id)
    requires Rounds(dues, now, batch, rounds) && k < |rounds| && q in OverdueSet(dues[k + 1], now)
    ensures q in OverdueSet(dues[k], now) && q !in rounds[k]
  {
    assert Round(dues, now, batch, rounds, k);
    PostponedLeavesTheRest(dues[k], dues[k + 1], rounds[k], now);
  }

  /** Earliest deadline first, across all the calls. */
  lemma {:induction false} ClaimsFollowDeadlines(dues: seq<Deadlines>, now: int, batch: nat, rounds: seq<seq<Id>>, k: nat, i: nat, j: nat)
    requires Rounds(dues, now, batch, rounds) && k <= |rounds| && i < j < |Claimed(rounds, k)|
    ensures NoLater(dues[0], Claimed(rounds, k)[i], Claimed(rounds, k)[j], now)
    decreases k
  {
    var n := |Claimed(rounds, k - 1)|;
    if j < n {
      ClaimsFollowDeadlines(dues, now, batch, rounds, k - 1, i, j);
    } else {
      var q := rounds[k - 1][j - n];
      WasOverdue(dues, now, batch, rounds, k - 1, j - n);
      if i < n {
        OverdueComesLater(dues, now, batch, rounds, k - 1, i, q);
      } else {
        assert q in rounds[k - 1][i - n + 1..];
        RoundFollows(dues, now, batch, rounds, k - 1, i - n, q);
      }
    }
  }

  /** One more call. */
  lemma RoundsGrow(dues: seq<Deadlines>, now: int, batch: nat, rounds: seq<seq<Id>>, after: Deadlines, claimed: seq<Id>)
    requires Rounds(dues, now, batch, rounds) && Claims(dues[|rounds|], now, batch, claimed) && Postponed(dues[|rounds|], after, claimed, now)
    ensures Rounds(dues + [after], now, batch, rounds + [claimed])
    ensures Claimed(rounds + [claimed], |rounds| + 1) == Claimed(rounds, |rounds|) + claimed
  {
    forall k: nat | k < |rounds| + 1
      ensures Round(dues + [after], now, batch, rounds + [claimed], k)
    {
      if k < |rounds| { assert Round(dues, now, batch, rounds, k); }
    }
    ClaimedPrefix(rounds, rounds + [claimed], |rounds|);
  }

  lemma {:induction false} ClaimedPrefix(rounds: seq<seq<Id>>, longer: seq<seq<Id>>, k: nat)
    requires rounds <= longer && k <= |rounds|
    ensures Claimed(longer, k) == Claimed(rounds, k)
  {
    if k > 0 { ClaimedPrefix(rounds, longer, k - 1); }
  }

  /** What the calls claimed: distinct, earliest deadline first, and all that was overdue
      exactly when there were enough calls. */
  ghost predicate Drained(due: Deadlines, after: Deadlines, now: int, batch: nat, calls: nat, claimed: seq<Id>)
    requires batch > 0
  {
    var enough := calls >= RoundsNeeded(|OverdueSet(due, now)|, batch);
    && Distinct(claimed) && (forall i, j | 0 <= i < j < |claimed| :: NoLater(due, claimed[i], claimed[j], now))
    && (OverdueSet(after, now) == {} <==> enough)
    && (enough ==> Elements(claimed) == OverdueSet(due, now))
  }

  lemma RoundsDrain(dues: seq<Deadlines>, now: int, batch: nat, rounds: seq<seq<Id>>)
    requires batch > 0 && Rounds(dues, now, batch, rounds)
    ensures Drained(dues[0], dues[|rounds|], now, batch, |rounds|, Claimed(rounds, |rounds|))
  {
    SagasDrain(dues, now, batch, rounds);
    RoundsPartition(dues, now, batch, rounds, |rounds|);
    var claimed := Claimed(rounds, |rounds|);
    forall i, j | 0 <= i < j < |claimed| ensures NoLater(dues[0], claimed[i], claimed[j], now) {
      ClaimsFollowDeadlines(dues, now, batch, rounds, |rounds|, i, j);
    }
  }

  lemma WasOverdue(dues: seq<Deadlines>, now: int, batch: nat, rounds: seq<seq<Id>>, k: nat, j: nat)
    requires Rounds(dues, now, batch, rounds) && k < |rounds| && j < |rounds[k]|
    ensures rounds[k][j] in OverdueSet(dues[k], now)
  {
    assert Round(dues, now, batch, rounds, k);
  }
}
