/** At-least-once publication becomes at-most-once, in-order effects. */
module DeliveryProofs {
  import opened PaymentCore
  import opened Backoff
  import opened Delivery

  // ---- The invariant ----------------------------------------------------------

  /** Rows m and n are events of one aggregate on one topic partition. */
  predicate SameLane(rows: seq<OutboxRow>, m: nat, n: nat) {
    && m < |rows| && n < |rows|
    && rows[m].aggregate == rows[n].aggregate && rows[m].partition == rows[n].partition
  }

  predicate SameAggregate(rows: seq<OutboxRow>, m: nat, n: nat) {
    m < |rows| && n < |rows| && rows[m].aggregate == rows[n].aggregate
  }

  /** Rows m and n are events of one aggregate on one topic. */
  predicate SameTopic(rows: seq<OutboxRow>, m: nat, n: nat) {
    SameAggregate(rows, m, n) && rows[m].partition.topic == rows[n].partition.topic
  }

  /** Keys are hashed: equal aggregate ids on one topic share a partition. */
  ghost predicate Hashed(rows: seq<OutboxRow>) {
    forall m, n | 0 <= m < |rows| && 0 <= n < |rows| ::
      rows[m].aggregate.id == rows[n].aggregate.id && rows[m].partition.topic == rows[n].partition.topic ==> rows[m].partition == rows[n].partition
  }

  /** A published row is on the wire, and a pending one has attempts left. */
  predicate RowFits(c: Config, s: System, n: nat) {
    n < |s.rows| ==>
      && (s.rows[n].published ==> n in s.wire && n in ChannelOf(s, s.rows[n].partition).log)
      && (!s.rows[n].published && !s.rows[n].failed ==> s.rows[n].attempts < c.maxAttempts)
  }

  /** Whatever is on the wire had nothing unpublished before it. */
  ghost predicate WireFits(rows: seq<OutboxRow>, wire: seq<nat>) {
    && (forall i | 0 <= i < |wire| :: wire[i] < |rows| && Unblocked(rows, wire[i]))
    && (forall i, m: nat | 0 <= i < |wire| && m < wire[i] && SameAggregate(rows, m, wire[i]) :: m in wire[..i])
  }

  ghost predicate LogFits(rows: seq<OutboxRow>, log: seq<nat>, at: Partition) {
    && (forall i | 0 <= i < |log| :: log[i] < |rows| && rows[log[i]].partition == at && Unblocked(rows, log[i]))
    && (forall i, j | 0 <= i < j < |log| && SameLane(rows, log[i], log[j]) :: log[i] <= log[j])
    && (forall i, m: nat | 0 <= i < |log| && m < log[i] && SameLane(rows, m, log[i]) :: m in log[..i])
  }

  /** Everything before the committed offset is resolved. */
  ghost predicate ChannelFits(s: System, at: Partition) {
    var channel := ChannelOf(s, at);
    && LogFits(s.rows, channel.log, at)
    && channel.committed <= |channel.log|
    && forall i | 0 <= i < channel.committed :: Resolved(s, channel.log[i])
  }

  /** A claimed row is still claimable, and its pending update only claims a publication
      that happened. */
  ghost predicate BatchFits(c: Config, s: System, k: nat) {
    k in s.batches ==>
      var b := s.batches[k];
      && |b.updates| <= |b.claimed|
      && (forall i, j | 0 <= i < j < |b.claimed| :: b.claimed[i] < b.claimed[j])
      && (forall i | 0 <= i < |b.claimed| :: ClaimFits(s.rows, b.claimed[i]))
      && (forall i | 0 <= i < |b.updates| :: UpdateFits(c, s, b.claimed[i], b.updates[i]))
  }

  predicate ClaimFits(rows: seq<OutboxRow>, n: nat) {
    n < |rows| && !rows[n].published && !rows[n].failed && Unblocked(rows, n)
  }

  predicate UpdateFits(c: Config, s: System, n: nat, update: OutboxRow) {
    && n < |s.rows| && update.aggregate == s.rows[n].aggregate && update.partition == s.rows[n].partition
    && (update.published ==> n in s.wire && n in ChannelOf(s, update.partition).log)
    && (!update.published && !update.failed ==> update.attempts < c.maxAttempts)
  }

  ghost predicate Exclusive(batches: map<nat, Batch>) {
    forall k, l, n: nat | k in batches && l in batches && n in batches[k].claimed && n in batches[l].claimed :: k == l
  }

  /** The event of a resolution has been read from its channel. */
  predicate Read(s: System, n: nat) {
    && n < |s.rows|
    && var channel := ChannelOf(s, s.rows[n].partition);
       channel.committed <= |channel.log| &&
       (n in channel.log[..channel.committed] || (channel.committed < |channel.log| && channel.log[channel.committed] == n))
  }

  ghost predicate HistoryFits(rows: seq<OutboxRow>, history: seq<Resolution>) {
    && (forall k, m: nat | 0 <= k < |history| && history[k].Applied? && m < history[k].event && SameLane(rows, m, history[k].event) ::
          exists j :: 0 <= j < k && history[j].event == m)
    && (forall j, k | 0 <= j < k < |history| && history[j].Applied? && history[k].Applied? && SameLane(rows, history[j].event, history[k].event) ::
          history[j].event < history[k].event)
  }

  ghost predicate Inv(c: Config, s: System) {
    && Hashed(s.rows)
    && (forall n: nat :: RowFits(c, s, n))
    && WireFits(s.rows, s.wire)
    && (forall at :: ChannelFits(s, at))
    && (forall k: nat :: BatchFits(c, s, k))
    && Exclusive(s.batches)
    && (forall k | 0 <= k < |s.history| :: Read(s, s.history[k].event))
    && (forall n: nat :: n in s.inbox <==> Applied(n) in s.history)
    && HistoryFits(s.rows, s.history)
  }

  lemma EmptyInv(c: Config)
    ensures Inv(c, EMPTY)
  {}

  // ---- Consumer steps ---------------------------------------------------------

  /** Every earlier event of the lane has been resolved when a message is read. */
  lemma EarlierResolved(c: Config, s: System, at: Partition, m: nat) returns (j: nat)
    requires Inv(c, s) && ChannelOf(s, at).committed < |ChannelOf(s, at).log|
    requires var n := ChannelOf(s, at).log[ChannelOf(s, at).committed]; m < n && SameLane(s.rows, m, n)
    ensures j < |s.history| && s.history[j].event == m
  {
    assert ChannelFits(s, at);
    var channel := ChannelOf(s, at);
    assert m in channel.log[..channel.committed];
    var i :| 0 <= i < channel.committed && channel.log[i] == m;
    assert Resolved(s, channel.log[i]);
    if m in s.inbox {
      j :| 0 <= j < |s.history| && s.history[j] == Applied(m);
    } else {
      j :| 0 <= j < |s.history| && s.history[j] == Rejected(m);
    }
  }

  /** Every applied event of the lane is smaller than a new one. */
  lemma EarlierSmaller(c: Config, s: System, at: Partition, j: nat)
    requires Inv(c, s) && ChannelOf(s, at).committed < |ChannelOf(s, at).log|
    requires j < |s.history| && s.history[j].Applied?
    requires var n := ChannelOf(s, at).log[ChannelOf(s, at).committed]; n !in s.inbox && SameLane(s.rows, s.history[j].event, n)
    ensures s.history[j].event < ChannelOf(s, at).log[ChannelOf(s, at).committed]
  {
    assert ChannelFits(s, at);
    var channel := ChannelOf(s, at);
    var a := s.history[j].event;
    assert Read(s, a) && s.history[j] in s.history;
    if a in channel.log[..channel.committed] {
      var i :| 0 <= i < channel.committed && channel.log[i] == a;
      assert channel.log[i] <= channel.log[channel.committed];
    }
  }

  lemma ConsumeKeeps(c: Config, s: System, at: Partition, verdict: Verdict)
    requires Inv(c, s)
    ensures Inv(c, Consume(s, at, verdict))
  {
    var s' := Consume(s, at, verdict);
    if s' != s {
      var channel := ChannelOf(s, at);
      var n := channel.log[channel.committed];
      assert ChannelFits(s, at);
      forall m: nat ensures RowFits(c, s', m) { assert RowFits(c, s, m); }
      forall at' ensures ChannelFits(s', at') { assert ChannelFits(s, at'); }
      forall r: nat ensures BatchFits(c, s', r) { assert BatchFits(c, s, r); }
      forall i | 0 <= i < |s'.history| ensures Read(s', s'.history[i].event) { if i < |s.history| { assert Read(s, s.history[i].event); } }
      NextFits(c, s, at, if verdict == Permanent then Rejected(n) else Applied(n));
    }
  }

  /** A resolution of the message at the cursor follows everything before it. */
  lemma NextFits(c: Config, s: System, at: Partition, last: Resolution)
    requires Inv(c, s) && ChannelOf(s, at).committed < |ChannelOf(s, at).log|
    requires last.event == ChannelOf(s, at).log[ChannelOf(s, at).committed] && last.event !in s.inbox
    ensures HistoryFits(s.rows, s.history + [last])
  {
    var n := last.event;
    forall m: nat | last.Applied? && m < n && SameLane(s.rows, m, n)
      ensures exists j :: 0 <= j < |s.history| && s.history[j].event == m
    {
      var j := EarlierResolved(c, s, at, m);
      assert s.history[j].event == m;
    }
    forall j | last.Applied? && 0 <= j < |s.history| && s.history[j].Applied? && SameLane(s.rows, s.history[j].event, n)
      ensures s.history[j].event < n
    {
      EarlierSmaller(c, s, at, j);
    }
    HistoryAppend(s.rows, s.history, last);
  }

  lemma HistoryAppend(rows: seq<OutboxRow>, history: seq<Resolution>, last: Resolution)
    requires HistoryFits(rows, history)
    requires last.Applied? ==> forall m: nat | m < last.event && SameLane(rows, m, last.event) :: exists j :: 0 <= j < |history| && history[j].event == m
    requires last.Applied? ==> forall j | 0 <= j < |history| && history[j].Applied? && SameLane(rows, history[j].event, last.event) :: history[j].event < last.event
    ensures HistoryFits(rows, history + [last])
  {
    var h := history + [last];
    forall k, m: nat | 0 <= k < |h| && h[k].Applied? && m < h[k].event && SameLane(rows, m, h[k].event)
      ensures exists j :: 0 <= j < k && h[j].event == m
    {
      if k < |history| {
        var j :| 0 <= j < k && history[j].event == m;
        assert h[j].event == m;
      } else {
        var j :| 0 <= j < |history| && history[j].event == m;
        assert h[j].event == m;
      }
    }
  }

  lemma OffsetKeeps(c: Config, s: System, at: Partition)
    requires Inv(c, s)
    ensures Inv(c, CommitOffset(s, at))
  {
    var s' := CommitOffset(s, at);
    if s' != s {
      forall m: nat ensures RowFits(c, s', m) { assert RowFits(c, s, m); }
      forall at' ensures ChannelFits(s', at') { assert ChannelFits(s, at'); }
      forall r: nat ensures BatchFits(c, s', r) { assert BatchFits(c, s, r); }
      forall i | 0 <= i < |s'.history| ensures Read(s', s'.history[i].event) { assert Read(s, s.history[i].event); }
    }
  }

  // ---- Table changes ----------------------------------------------------------

  /** The table keeps its rows' identity and its publication marks, and may grow. */
  ghost predicate Advanced(rows: seq<OutboxRow>, rows': seq<OutboxRow>) {
    && |rows| <= |rows'|
    && forall n | 0 <= n < |rows| ::
         && rows'[n].aggregate == rows[n].aggregate && rows'[n].partition == rows[n].partition
         && (rows[n].published ==> rows'[n].published)
  }

  lemma HashedAdvances(rows: seq<OutboxRow>, rows': seq<OutboxRow>)
    requires Advanced(rows, rows') && |rows'| == |rows| && Hashed(rows)
    ensures Hashed(rows')
  {}

  lemma HashedInsert(s: System, aggregate: Aggregate, partition: Partition, now: int)
    requires Hashed(s.rows)
    ensures Hashed(Insert(s, aggregate, partition, now).rows)
  {}

  lemma UnblockedAdvances(rows: seq<OutboxRow>, rows': seq<OutboxRow>, n: nat)
    requires Advanced(rows, rows') && n < |rows| && Unblocked(rows, n)
    ensures Unblocked(rows', n)
  {}

  lemma WireAdvances(rows: seq<OutboxRow>, rows': seq<OutboxRow>, wire: seq<nat>)
    requires Advanced(rows, rows') && WireFits(rows, wire)
    ensures WireFits(rows', wire)
  {
    forall i | 0 <= i < |wire| ensures wire[i] < |rows'| && Unblocked(rows', wire[i]) { UnblockedAdvances(rows, rows', wire[i]); }
    forall i, m: nat | 0 <= i < |wire| && m < wire[i] && SameAggregate(rows', m, wire[i])
      ensures m in wire[..i]
    {
      assert SameAggregate(rows, m, wire[i]);
    }
  }

  lemma LogAdvances(rows: seq<OutboxRow>, rows': seq<OutboxRow>, log: seq<nat>, at: Partition)
    requires Advanced(rows, rows') && LogFits(rows, log, at)
    ensures LogFits(rows', log, at)
  {
    forall i | 0 <= i < |log| ensures log[i] < |rows'| && rows'[log[i]].partition == at && Unblocked(rows', log[i]) { UnblockedAdvances(rows, rows', log[i]); }
    forall i, j | 0 <= i < j < |log| && SameLane(rows', log[i], log[j]) ensures log[i] <= log[j] { assert SameLane(rows, log[i], log[j]); }
    forall i, m: nat | 0 <= i < |log| && m < log[i] && SameLane(rows', m, log[i])
      ensures m in log[..i]
    {
      assert SameLane(rows, m, log[i]);
    }
  }

  lemma HistoryAdvances(rows: seq<OutboxRow>, rows': seq<OutboxRow>, history: seq<Resolution>)
    requires Advanced(rows, rows') && HistoryFits(rows, history)
    requires forall k | 0 <= k < |history| :: history[k].event < |rows|
    ensures HistoryFits(rows', history)
  {
    forall k, m: nat | 0 <= k < |history| && history[k].Applied? && m < history[k].event && SameLane(rows', m, history[k].event)
      ensures exists j :: 0 <= j < k && history[j].event == m
    {
      assert SameLane(rows, m, history[k].event);
    }
    forall j, k | 0 <= j < k < |history| && history[j].Applied? && history[k].Applied? && SameLane(rows', history[j].event, history[k].event)
      ensures history[j].event < history[k].event
    {
      assert SameLane(rows, history[j].event, history[k].event);
    }
  }

  /** Replacing the table by an advanced one keeps everything but the row-local facts. */
  lemma TableKeeps(c: Config, s: System, rows: seq<OutboxRow>, batches: map<nat, Batch>)
    requires Inv(c, s) && Advanced(s.rows, rows) && Hashed(rows)
    requires forall n: nat :: RowFits(c, s.(rows := rows, batches := batches), n)
    requires forall k: nat :: BatchFits(c, s.(rows := rows, batches := batches), k)
    requires Exclusive(batches)
    ensures Inv(c, s.(rows := rows, batches := batches))
  {
    var s' := s.(rows := rows, batches := batches);
    WireAdvances(s.rows, rows, s.wire);
    forall at ensures ChannelFits(s', at) { assert ChannelFits(s, at); LogAdvances(s.rows, rows, ChannelOf(s, at).log, at); }
    forall k | 0 <= k < |s.history| ensures Read(s', s.history[k].event) { assert Read(s, s.history[k].event); }
    HistoryAdvances(s.rows, rows, s.history);
  }

  /** A batch survives when its own rows are untouched and nothing leaves the wire. */
  lemma BatchSurvives(c: Config, s: System, s': System, k: nat)
    requires Inv(c, s) && Advanced(s.rows, s'.rows) && k in s.batches && k in s'.batches && s'.batches[k] == s.batches[k]
    requires forall n | n in s.batches[k].claimed && n < |s.rows| :: s'.rows[n] == s.rows[n]
    requires s.wire <= s'.wire && forall at :: ChannelOf(s, at).log <= ChannelOf(s', at).log
    ensures BatchFits(c, s', k)
  {
    var b := s.batches[k];
    assert BatchFits(c, s, k);
    forall i | 0 <= i < |b.claimed|
      ensures ClaimFits(s'.rows, b.claimed[i])
    {
      assert ClaimFits(s.rows, b.claimed[i]);
      UnblockedAdvances(s.rows, s'.rows, b.claimed[i]);
    }
    forall i | 0 <= i < |b.updates|
      ensures UpdateFits(c, s', b.claimed[i], b.updates[i])
    {
      assert UpdateFits(c, s, b.claimed[i], b.updates[i]);
      assert ChannelOf(s, b.updates[i].partition).log <= ChannelOf(s', b.updates[i].partition).log;
    }
  }

  lemma InsertKeeps(c: Config, s: System, aggregate: Aggregate, partition: Partition, now: int)
    requires c.Valid() && Inv(c, s)
    ensures Inv(c, Insert(s, aggregate, partition, now))
  {
    var s' := Insert(s, aggregate, partition, now);
    if s' != s {
      forall n: nat ensures RowFits(c, s', n) { assert RowFits(c, s, n); }
      forall k: nat ensures BatchFits(c, s', k) { if k in s.batches { BatchSurvives(c, s, s', k); } }
      HashedInsert(s, aggregate, partition, now);
      TableKeeps(c, s, s'.rows, s.batches);
    }
  }

  lemma ClaimKeeps(c: Config, s: System, relay: nat, picks: seq<nat>, now: int)
    requires Inv(c, s)
    ensures Inv(c, Claim(c, s, relay, picks, now))
  {
    var s' := Claim(c, s, relay, picks, now);
    if s' != s {
      forall n: nat ensures RowFits(c, s', n) { assert RowFits(c, s, n); }
      forall k: nat ensures BatchFits(c, s', k) { assert BatchFits(c, s, k); }
      forall n: nat | n in picks ensures forall k | k in s.batches :: n !in s.batches[k].claimed { assert !Locked(s, n); }
      TableKeeps(c, s, s.rows, s'.batches);
    }
  }

  lemma RollbackKeeps(c: Config, s: System, relay: nat)
    requires Inv(c, s)
    ensures Inv(c, Rollback(s, relay))
  {
    var s' := Rollback(s, relay);
    forall n: nat ensures RowFits(c, s', n) { assert RowFits(c, s, n); }
    forall k: nat ensures BatchFits(c, s', k) { assert BatchFits(c, s, k); }
    TableKeeps(c, s, s.rows, s'.batches);
  }

  lemma RedriveKeeps(c: Config, s: System, n: nat, now: int)
    requires c.Valid() && Inv(c, s)
    ensures Inv(c, Redrive(s, n, now))
  {
    var s' := Redrive(s, n, now);
    if s' != s {
      forall m: nat ensures RowFits(c, s', m) { assert RowFits(c, s, m); }
      forall k: nat ensures BatchFits(c, s', k) { if k in s.batches { assert BatchFits(c, s, k); BatchSurvives(c, s, s', k); } }
      HashedAdvances(s.rows, s'.rows);
      TableKeeps(c, s, s'.rows, s.batches);
    }
  }

  // ---- Publication ------------------------------------------------------------

  lemma WireAppend(c: Config, s: System, n: nat)
    requires Inv(c, s) && ClaimFits(s.rows, n)
    ensures WireFits(s.rows, s.wire + [n])
  {
    var wire := s.wire + [n];
    forall i, m: nat | 0 <= i < |wire| && m < wire[i] && SameAggregate(s.rows, m, wire[i])
      ensures m in wire[..i]
    {
      if i < |s.wire| {
        assert wire[..i] == s.wire[..i] && m in s.wire[..i];
      } else {
        assert s.rows[m].published && RowFits(c, s, m);
        assert wire[..i] == s.wire;
      }
    }
  }

  lemma LogAppend(c: Config, s: System, n: nat)
    requires Inv(c, s) && ClaimFits(s.rows, n)
    ensures var at := s.rows[n].partition; LogFits(s.rows, ChannelOf(s, at).log + [n], at)
  {
    var at := s.rows[n].partition;
    var oldLog := ChannelOf(s, at).log;
    var log := oldLog + [n];
    assert ChannelFits(s, at);
    forall i, j | 0 <= i < j < |log| && SameLane(s.rows, log[i], log[j])
      ensures log[i] <= log[j]
    {
      assert Unblocked(s.rows, oldLog[i]);
    }
    forall i, m: nat | 0 <= i < |log| && m < log[i] && SameLane(s.rows, m, log[i])
      ensures m in log[..i]
    {
      if i < |oldLog| {
        assert log[..i] == oldLog[..i] && m in oldLog[..i];
      } else {
        assert s.rows[m].published && RowFits(c, s, m);
        assert log[..i] == oldLog;
      }
    }
  }

  lemma ReadSurvives(s: System, n: nat, event: nat)
    requires n < |s.rows| && Read(s, event)
    ensures Read(Append(s, n), event)
  {
    var at := s.rows[event].partition;
    var before, after := ChannelOf(s, at), ChannelOf(Append(s, n), at);
    assert after.log[..before.committed] == before.log[..before.committed];
  }

  lemma ChannelSurvives(c: Config, s: System, n: nat, at: Partition)
    requires Inv(c, s) && ClaimFits(s.rows, n)
    ensures ChannelFits(Append(s, n), at)
  {
    assert ChannelFits(s, at);
    LogAppend(c, s, n);
  }

  lemma AppendKeeps(c: Config, s: System, n: nat)
    requires Inv(c, s) && ClaimFits(s.rows, n)
    ensures Inv(c, Append(s, n)) && n in Append(s, n).wire && n in ChannelOf(Append(s, n), s.rows[n].partition).log
  {
    var s' := Append(s, n);
    WireAppend(c, s, n);
    forall m: nat ensures RowFits(c, s', m) { assert RowFits(c, s, m); }
    forall at ensures ChannelFits(s', at) { ChannelSurvives(c, s, n, at); }
    forall k: nat ensures BatchFits(c, s', k) { if k in s.batches { BatchSurvives(c, s, s', k); } }
    forall k | 0 <= k < |s.history| ensures Read(s', s.history[k].event) { ReadSurvives(s, n, s.history[k].event); }
  }

  lemma UpdateFitsBatch(c: Config, s: System, relay: nat, update: OutboxRow, k: nat)
    requires Inv(c, s) && relay in s.batches && |s.batches[relay].updates| < |s.batches[relay].claimed|
    requires UpdateFits(c, s, s.batches[relay].claimed[|s.batches[relay].updates|], update)
    ensures var b := s.batches[relay];
      BatchFits(c, s.(batches := s.batches[relay := b.(updates := b.updates + [update])]), k)
  {
    assert BatchFits(c, s, k);
    if k == relay {
      var b := s.batches[relay];
      var updates := b.updates + [update];
      forall i | 0 <= i < |updates|
        ensures UpdateFits(c, s.(batches := s.batches[relay := b.(updates := updates)]), b.claimed[i], updates[i])
      {
        assert i < |b.updates| ==> UpdateFits(c, s, b.claimed[i], b.updates[i]);
      }
    }
  }

  lemma UpdateKeeps(c: Config, s: System, relay: nat, update: OutboxRow, deadLetters: seq<nat>)
    requires Inv(c, s) && relay in s.batches && |s.batches[relay].updates| < |s.batches[relay].claimed|
    requires UpdateFits(c, s, s.batches[relay].claimed[|s.batches[relay].updates|], update)
    ensures var b := s.batches[relay];
      Inv(c, s.(batches := s.batches[relay := b.(updates := b.updates + [update])], deadLetters := deadLetters))
  {
    var b := s.batches[relay];
    var s' := s.(batches := s.batches[relay := b.(updates := b.updates + [update])]);
    forall n: nat ensures RowFits(c, s', n) { assert RowFits(c, s, n); }
    forall k: nat ensures BatchFits(c, s', k) { UpdateFitsBatch(c, s, relay, update, k); }
    assert Exclusive(s'.batches);
    TableKeeps(c, s, s.rows, s'.batches);
    DeadLettersAreFree(c, s', deadLetters);
  }

  lemma DeadLettersAreFree(c: Config, s: System, deadLetters: seq<nat>)
    requires Inv(c, s)
    ensures Inv(c, s.(deadLetters := deadLetters))
  {
    var s' := s.(deadLetters := deadLetters);
    forall n: nat ensures RowFits(c, s', n) { assert RowFits(c, s, n); }
    forall at ensures ChannelFits(s', at) { assert ChannelFits(s, at); }
    forall k: nat ensures BatchFits(c, s', k) { assert BatchFits(c, s, k); }
    forall k | 0 <= k < |s.history| ensures Read(s', s.history[k].event) { assert Read(s, s.history[k].event); }
  }

  lemma PublishKeeps(c: Config, s: System, relay: nat, outcome: Outcome, now: int, clock: nat)
    requires c.Valid() && Inv(c, s)
    ensures Inv(c, Publish(c, s, relay, outcome, now, clock))
  {
    if relay in s.batches && |s.batches[relay].updates| < |s.batches[relay].claimed| {
      var b := s.batches[relay];
      var n := b.claimed[|b.updates|];
      assert BatchFits(c, s, relay) && ClaimFits(s.rows, n) && RowFits(c, s, n);
      var row := s.rows[n];
      AppendKeeps(c, s, n);
      match outcome
      case Acknowledged => UpdateKeeps(c, Append(s, n), relay, row.(published := true), s.deadLetters);
      case Errored(delivered, deadLettered) =>
        var sent := if delivered then Append(s, n) else s;
        if Exhausted(c, row, now) && !deadLettered {
          RollbackKeeps(c, sent, relay);
        } else {
          UpdateKeeps(c, sent, relay, AfterFailure(c, row, now, clock), if Exhausted(c, row, now) then s.deadLetters + [n] else s.deadLetters);
        }
    }
  }

  // ---- Commit -----------------------------------------------------------------

  lemma {:induction false} WriteAt(rows: seq<OutboxRow>, claimed: seq<nat>, updates: seq<OutboxRow>, n: nat)
    requires |updates| <= |claimed| && n < |rows|
    requires forall i, j | 0 <= i < j < |claimed| :: claimed[i] < claimed[j]
    ensures (forall i | 0 <= i < |updates| :: claimed[i] != n) ==> Write(rows, claimed, updates)[n] == rows[n]
    ensures forall i | 0 <= i < |updates| && claimed[i] == n :: Write(rows, claimed, updates)[n] == updates[i]
  {
    if |updates| > 0 {
      WriteAt(rows, claimed, updates[..|updates| - 1], n);
    }
  }

  lemma CommitKeeps(c: Config, s: System, relay: nat)
    requires Inv(c, s)
    ensures Inv(c, CommitBatch(s, relay))
  {
    var s' := CommitBatch(s, relay);
    if relay in s.batches && |s.batches[relay].updates| == |s.batches[relay].claimed| {
      var b := s.batches[relay];
      assert BatchFits(c, s, relay);
      forall n | 0 <= n < |s.rows|
        ensures s'.rows[n].aggregate == s.rows[n].aggregate && s'.rows[n].partition == s.rows[n].partition
        ensures s.rows[n].published ==> s'.rows[n].published
        ensures RowFits(c, s', n)
        ensures n !in b.claimed ==> s'.rows[n] == s.rows[n]
      {
        assert RowFits(c, s, n);
        WriteAt(s.rows, b.claimed, b.updates, n);
        if n in b.claimed {
          var i :| 0 <= i < |b.claimed| && b.claimed[i] == n;
          assert UpdateFits(c, s, b.claimed[i], b.updates[i]) && ClaimFits(s.rows, n);
        }
      }
      forall k: nat
        ensures BatchFits(c, s', k)
      {
        if k in s'.batches {
          assert forall n: nat | n in s.batches[k].claimed :: n !in b.claimed;
          BatchSurvives(c, s, s', k);
        }
      }
      forall n: nat ensures RowFits(c, s', n) { assert n < |s.rows| ==> RowFits(c, s', n); }
      HashedAdvances(s.rows, s'.rows);
      TableKeeps(c, s, s'.rows, s'.batches);
    }
  }

  // ---- Runs -------------------------------------------------------------------

  lemma PerformKeeps(c: Config, s: System, step: Step)
    requires c.Valid() && Inv(c, s)
    ensures Inv(c, Perform(c, s, step))
  {
    match step
    case InsertStep(aggregate, partition, now) => InsertKeeps(c, s, aggregate, partition, now);
    case ClaimStep(relay, picks, now) => ClaimKeeps(c, s, relay, picks, now);
    case PublishStep(relay, outcome, now, clock) => PublishKeeps(c, s, relay, outcome, now, clock);
    case CommitStep(relay) => CommitKeeps(c, s, relay);
    case RollbackStep(relay) => RollbackKeeps(c, s, relay);
    case RedriveStep(n, now) => RedriveKeeps(c, s, n, now);
    case ConsumeStep(at, verdict) => ConsumeKeeps(c, s, at, verdict);
    case OffsetStep(at) => OffsetKeeps(c, s, at);
  }

  lemma {:induction false} RunKeeps(c: Config, s: System, steps: seq<Step>)
    requires c.Valid() && Inv(c, s)
    ensures Inv(c, Run(c, s, steps))
    decreases |steps|
  {
    if steps != [] {
      PerformKeeps(c, s, steps[0]);
      RunKeeps(c, Perform(c, s, steps[0]), steps[1..]);
    }
  }

  lemma Reached(c: Config, steps: seq<Step>)
    requires c.Valid()
    ensures Inv(c, Run(c, EMPTY, steps))
  {
    EmptyInv(c);
    RunKeeps(c, EMPTY, steps);
  }

  // ---- Theorems ---------------------------------------------------------------

  /** Each event takes effect at most once. */
  lemma AppliedAtMostOnce(c: Config, steps: seq<Step>, j: nat, k: nat)
    requires c.Valid() && j < k < |Run(c, EMPTY, steps).history|
    ensures var h := Run(c, EMPTY, steps).history; h[j].Applied? && h[k].Applied? ==> h[j].event != h[k].event
  {
    Reached(c, steps);
    var s := Run(c, EMPTY, steps);
    assert Read(s, s.history[j].event);
    if s.history[j].event == s.history[k].event {
      assert SameLane(s.rows, s.history[j].event, s.history[k].event);
    }
  }

  /** Events of one aggregate on one topic share a partition, so a lane is all of them. */
  lemma TopicIsLane(rows: seq<OutboxRow>, m: nat, n: nat)
    requires Hashed(rows)
    ensures SameTopic(rows, m, n) <==> SameLane(rows, m, n)
  {}

  /** Effects follow the outbox order of their aggregate and topic, and no event takes
      effect before every earlier one has taken effect or been permanently rejected. */
  lemma AppliedInOrder(c: Config, steps: seq<Step>, k: nat)
    requires c.Valid() && k < |Run(c, EMPTY, steps).history| && Run(c, EMPTY, steps).history[k].Applied?
    ensures var s := Run(c, EMPTY, steps);
      && (forall m: nat | m < s.history[k].event && SameTopic(s.rows, m, s.history[k].event) ::
            exists j :: 0 <= j < k && s.history[j].event == m)
      && (forall j | 0 <= j < k && s.history[j].Applied? && SameTopic(s.rows, s.history[j].event, s.history[k].event) ::
            s.history[j].event < s.history[k].event)
  {
    Reached(c, steps);
    var s := Run(c, EMPTY, steps);
    forall m: nat | m < s.history[k].event && SameTopic(s.rows, m, s.history[k].event)
      ensures exists j :: 0 <= j < k && s.history[j].event == m
    {
      TopicIsLane(s.rows, m, s.history[k].event);
    }
    forall j | 0 <= j < k && s.history[j].Applied? && SameTopic(s.rows, s.history[j].event, s.history[k].event)
      ensures s.history[j].event < s.history[k].event
    {
      TopicIsLane(s.rows, s.history[j].event, s.history[k].event);
    }
  }

  /** A message is read only after every earlier event of its aggregate and topic has taken
      effect or been permanently rejected. */
  lemma EarlierIsResolved(c: Config, s: System, at: Partition, m: nat)
    requires Inv(c, s) && ChannelOf(s, at).committed < |ChannelOf(s, at).log|
    requires var n := ChannelOf(s, at).log[ChannelOf(s, at).committed]; m < n && SameTopic(s.rows, m, n)
    ensures Resolved(s, m)
  {
    TopicIsLane(s.rows, m, ChannelOf(s, at).log[ChannelOf(s, at).committed]);
    var j := EarlierResolved(c, s, at, m);
    assert s.history[j] in s.history;
  }

  /** First publications within an aggregate follow its sequence order, across topics, for
      any number of relays, retries, rollbacks, dead-letters and redrives. */
  lemma PublicationsFollowSequence(c: Config, steps: seq<Step>, i: nat, m: nat)
    requires c.Valid() && i < |Run(c, EMPTY, steps).wire|
    requires var s := Run(c, EMPTY, steps); m < s.wire[i] && SameAggregate(s.rows, m, s.wire[i])
    ensures m in Run(c, EMPTY, steps).wire[..i]
  {
    Reached(c, steps);
  }

  /** While an event is unpublished, in particular while it is dead-lettered, nothing
      behind it in its aggregate has reached the wire. */
  lemma UnpublishedBlocksItsAggregate(c: Config, steps: seq<Step>, n: nat, later: nat)
    requires c.Valid()
    requires var s := Run(c, EMPTY, steps); n < later && SameAggregate(s.rows, n, later) && !s.rows[n].published
    ensures later !in Run(c, EMPTY, steps).wire
  {
    Reached(c, steps);
    var s := Run(c, EMPTY, steps);
    assert forall i | 0 <= i < |s.wire| :: Unblocked(s.rows, s.wire[i]);
  }

  /** It blocks nothing else: whether a row can be claimed depends on its own aggregate only. */
  lemma OnlyOwnAggregateBlocks(rows: seq<OutboxRow>, rows': seq<OutboxRow>, n: nat, now: int)
    requires n < |rows| <= |rows'|
    requires forall m | 0 <= m < |rows| :: rows'[m].aggregate == rows[m].aggregate
    requires forall m | 0 <= m < |rows| && rows[m].aggregate == rows[n].aggregate :: rows'[m] == rows[m]
    ensures Candidate(rows, n, now) <==> Candidate(rows', n, now)
  {
    if Candidate(rows', n, now) {
      forall m | 0 <= m < n && rows[m].aggregate == rows[n].aggregate ensures rows[m].published { assert rows'[m].published; }
    }
  }

  /** A batch holds at most one event of an aggregate. */
  lemma OneCandidatePerAggregate(rows: seq<OutboxRow>, m: nat, n: nat, now: int)
    requires Candidate(rows, m, now) && Candidate(rows, n, now) && rows[m].aggregate == rows[n].aggregate
    ensures m == n
  {
    assert Unblocked(rows, n) && Unblocked(rows, m);
  }

  /** Every row still pending has attempts left since it was created or last redriven. */
  lemma PendingRowsHaveAttemptsLeft(c: Config, steps: seq<Step>, n: nat)
    requires c.Valid() && n < |Run(c, EMPTY, steps).rows|
    ensures var row := Run(c, EMPTY, steps).rows[n]; !row.published && !row.failed ==> row.attempts < c.maxAttempts
  {
    Reached(c, steps);
    assert RowFits(c, Run(c, EMPTY, steps), n);
  }

  /** A failed publication is tried again, between half the policy's delay and all of it from
      now, while attempts and age allow; otherwise the row is given up for good. */
  lemma FailureDecides(c: Config, row: OutboxRow, now: int, clock: nat)
    requires c.Valid() && !row.published && !row.failed
    ensures var after := AfterFailure(c, row, now, clock);
      && after.attempts == row.attempts + 1 && !after.published
      && (after.failed <==> row.attempts + 1 >= c.maxAttempts || now >= row.since + c.maxAge)
      && (!after.failed ==> now + Delay(c.initial, c.maximum, row.attempts + 1) / 2 <= after.due <= now + Delay(c.initial, c.maximum, row.attempts + 1))
  {}

  /** Redriving makes a dead-lettered row claimable at once, unless an earlier event of its
      aggregate is unpublished, and gives it all its attempts and its whole age again. */
  lemma RedriveRevives(c: Config, s: System, n: nat, now: int)
    requires n < |s.rows| && s.rows[n].failed && !s.rows[n].published
    ensures var rows := Redrive(s, n, now).rows;
      && n < |rows| && (Candidate(rows, n, now) <==> Unblocked(s.rows, n))
      && rows[n].attempts == 0 && rows[n].since == now
  {
    var rows := Redrive(s, n, now).rows;
    if Unblocked(rows, n) {
      assert forall m | 0 <= m < n && s.rows[m].aggregate == s.rows[n].aggregate :: rows[m].published;
    }
  }

  /** A relay claims only rows that are pending and due, that no other relay holds, and that
      have nothing unpublished before them in their aggregate. */
  lemma ClaimedRowsAreDue(c: Config, s: System, relay: nat, picks: seq<nat>, now: int, n: nat)
    requires Claim(c, s, relay, picks, now) != s && n in picks
    ensures var s' := Claim(c, s, relay, picks, now);
      && relay in s'.batches && s'.batches[relay].claimed == picks && |picks| <= c.batchSize
      && n < |s.rows| && !s.rows[n].published && !s.rows[n].failed && s.rows[n].due <= now
      && (forall other | other in s.batches :: n !in s.batches[other].claimed)
      && (forall m | 0 <= m < n && s.rows[m].aggregate == s.rows[n].aggregate :: s.rows[m].published)
  {
    var i :| 0 <= i < |picks| && picks[i] == n;
    assert Candidate(s.rows, picks[i], now) && !Locked(s, picks[i]);
  }
}
