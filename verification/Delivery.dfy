/** From outbox row to consumer effect: relays that claim, publish and mark rows, a log
    per topic partition, and consumers that deduplicate through the inbox. Relays and
    consumers may crash between any two operations, and a publication that reports an
    error may still have reached the log. */
module Delivery {
  import opened PaymentCore
  import opened Backoff

  datatype Aggregate = Aggregate(kind: string, id: string)
  datatype Partition = Partition(topic: string, number: nat)

  /** outbox_events; the position in the table is the sequence number and identifies the event. */
  datatype OutboxRow = OutboxRow(
    aggregate: Aggregate, partition: Partition,
    published: bool, failed: bool, attempts: nat, due: int, since: int)

  /** One partition with its consumer group's committed offset. */
  datatype Channel = Channel(log: seq<nat>, committed: nat)

  /** An open relay transaction: the rows it has locked, and its uncommitted updates. */
  datatype Batch = Batch(claimed: seq<nat>, updates: seq<OutboxRow>)

  /** How a consumer disposed of a message. */
  datatype Resolution = Applied(event: nat) | Rejected(event: nat)

  datatype Config = Config(batchSize: nat, initial: int, maximum: int, maxAttempts: int, maxAge: int) {
    predicate Valid() {
      batchSize >= 1 && 0 < initial <= maximum <= MAX_INT64 && maxAttempts >= 1 && maxAge > 0
    }
  }

  datatype System = System(
    rows: seq<OutboxRow>, channels: map<Partition, Channel>, wire: seq<nat>, deadLetters: seq<nat>,
    batches: map<nat, Batch>, inbox: set<nat>, history: seq<Resolution>)

  const EMPTY := System([], map[], [], [], map[], {}, [])

  function ChannelOf(s: System, at: Partition): Channel {
    if at in s.channels then s.channels[at] else Channel([], 0)
  }

  // ---- Outbox and relay -------------------------------------------------------

  /** A key is always hashed to the same partition of a topic. */
  predicate Placeable(s: System, aggregate: Aggregate, partition: Partition) {
    forall n | 0 <= n < |s.rows| ::
      s.rows[n].aggregate.id == aggregate.id && s.rows[n].partition.topic == partition.topic ==> s.rows[n].partition == partition
  }

  function Insert(s: System, aggregate: Aggregate, partition: Partition, now: int): System {
    if !Placeable(s, aggregate, partition) then s
    else s.(rows := s.rows + [OutboxRow(aggregate, partition, false, false, 0, now, now)])
  }

  /** No earlier row of the aggregate is unpublished. */
  predicate Unblocked(rows: seq<OutboxRow>, n: nat)
    requires n < |rows|
  {
    forall m | 0 <= m < n :: rows[m].aggregate == rows[n].aggregate ==> rows[m].published
  }

  /** The WHERE clause of the claim query. */
  predicate Candidate(rows: seq<OutboxRow>, n: nat, now: int) {
    n < |rows| && !rows[n].published && !rows[n].failed && rows[n].due <= now && Unblocked(rows, n)
  }

  predicate Locked(s: System, n: nat) {
    exists k :: k in s.batches && n in s.batches[k].claimed
  }

  predicate Claimable(s: System, picks: seq<nat>, now: int, limit: nat) {
    && |picks| <= limit
    && (forall i, j | 0 <= i < j < |picks| :: picks[i] < picks[j])
    && (forall i | 0 <= i < |picks| :: Candidate(s.rows, picks[i], now) && !Locked(s, picks[i]))
  }

  function Claim(c: Config, s: System, relay: nat, picks: seq<nat>, now: int): System {
    if relay in s.batches || !Claimable(s, picks, now, c.batchSize) then s
    else s.(batches := s.batches[relay := Batch(picks, [])])
  }

  /** A publication that succeeded, or one that reported an error, with or without having
      reached the log, and with or without the dead-letter publication succeeding. */
  datatype Outcome = Acknowledged | Errored(delivered: bool, deadLettered: bool)

  predicate Exhausted(c: Config, row: OutboxRow, now: int) {
    row.attempts + 1 >= c.maxAttempts || now - row.since >= c.maxAge
  }

  /** recordFailure */
  function AfterFailure(c: Config, row: OutboxRow, now: int, clock: nat): OutboxRow
    requires c.Valid()
  {
    if Exhausted(c, row, now) then row.(attempts := row.attempts + 1, failed := true)
    else
      var delay := Delay(c.initial, c.maximum, row.attempts + 1);
      row.(attempts := row.attempts + 1, due := now + Jitter(delay, clock))
  }

  function Append(s: System, n: nat): System
    requires n < |s.rows|
  {
    var at := s.rows[n].partition;
    var channel := ChannelOf(s, at);
    s.(wire := s.wire + [n], channels := s.channels[at := channel.(log := channel.log + [n])])
  }

  /** One iteration of the publish loop. */
  function Publish(c: Config, s: System, relay: nat, outcome: Outcome, now: int, clock: nat): System
    requires c.Valid()
  {
    if relay !in s.batches || |s.batches[relay].updates| >= |s.batches[relay].claimed| then s
    else
      var b := s.batches[relay];
      var n := b.claimed[|b.updates|];
      if n >= |s.rows| then s
      else
        var row := s.rows[n];
        match outcome
        case Acknowledged =>
          Append(s, n).(batches := s.batches[relay := b.(updates := b.updates + [row.(published := true)])])
        case Errored(delivered, deadLettered) =>
          var sent := if delivered then Append(s, n) else s;
          if Exhausted(c, row, now) && !deadLettered then sent.(batches := s.batches - {relay})
          else
            sent.(batches := s.batches[relay := b.(updates := b.updates + [AfterFailure(c, row, now, clock)])],
                  deadLetters := if Exhausted(c, row, now) then s.deadLetters + [n] else s.deadLetters)
  }

  /** Writes the first updates of a batch into the table. */
  function Write(rows: seq<OutboxRow>, claimed: seq<nat>, updates: seq<OutboxRow>): (written: seq<OutboxRow>)
    requires |updates| <= |claimed|
    ensures |written| == |rows|
  {
    if |updates| == 0 then rows
    else
      var i := |updates| - 1;
      var before := Write(rows, claimed, updates[..i]);
      if claimed[i] < |rows| then before[claimed[i] := updates[i]] else before
  }

  function CommitBatch(s: System, relay: nat): System {
    if relay !in s.batches then s
    else
      var b := s.batches[relay];
      if |b.updates| != |b.claimed| then s
      else s.(rows := Write(s.rows, b.claimed, b.updates), batches := s.batches - {relay})
  }

  function Rollback(s: System, relay: nat): System { s.(batches := s.batches - {relay}) }

  function Redrive(s: System, n: nat, now: int): System {
    if n < |s.rows| && !s.rows[n].published && s.rows[n].failed then
      s.(rows := s.rows[n := s.rows[n].(attempts := 0, due := now, failed := false, since := now)])
    else s
  }

  // ---- Inbox and consumer -----------------------------------------------------

  datatype Verdict = Success | Permanent | Transient

  /** Processor.Process on the message at the committed offset: the inbox insert and the
      handler commit together, a duplicate is skipped, and an error rolls both back. */
  function Consume(s: System, at: Partition, verdict: Verdict): System {
    var channel := ChannelOf(s, at);
    if channel.committed >= |channel.log| then s
    else
      var n := channel.log[channel.committed];
      if n in s.inbox || verdict == Transient then s
      else if verdict == Permanent then s.(history := s.history + [Rejected(n)])
      else s.(inbox := s.inbox + {n}, history := s.history + [Applied(n)])
  }

  predicate Resolved(s: System, n: nat) {
    n in s.inbox || Rejected(n) in s.history
  }

  /** The offset is committed only after the message was applied, found a duplicate, or
      permanently rejected. */
  function CommitOffset(s: System, at: Partition): System {
    var channel := ChannelOf(s, at);
    if channel.committed >= |channel.log| || !Resolved(s, channel.log[channel.committed]) then s
    else s.(channels := s.channels[at := channel.(committed := channel.committed + 1)])
  }

  // ---- Runs -------------------------------------------------------------------

  datatype Step =
    | InsertStep(aggregate: Aggregate, partition: Partition, now: int)
    | ClaimStep(relay: nat, picks: seq<nat>, now: int)
    | PublishStep(relay: nat, outcome: Outcome, now: int, clock: nat)
    | CommitStep(relay: nat)
    | RollbackStep(relay: nat)
    | RedriveStep(n: nat, now: int)
    | ConsumeStep(at: Partition, verdict: Verdict)
    | OffsetStep(at: Partition)

  function Perform(c: Config, s: System, step: Step): System
    requires c.Valid()
  {
    match step
    case InsertStep(aggregate, partition, now) => Insert(s, aggregate, partition, now)
    case ClaimStep(relay, picks, now) => Claim(c, s, relay, picks, now)
    case PublishStep(relay, outcome, now, clock) => Publish(c, s, relay, outcome, now, clock)
    case CommitStep(relay) => CommitBatch(s, relay)
    case RollbackStep(relay) => Rollback(s, relay)
    case RedriveStep(n, now) => Redrive(s, n, now)
    case ConsumeStep(at, verdict) => Consume(s, at, verdict)
    case OffsetStep(at) => CommitOffset(s, at)
  }

  function Run(c: Config, s: System, steps: seq<Step>): System
    requires c.Valid()
    decreases |steps|
  {
    if steps == [] then s else Run(c, Perform(c, s, steps[0]), steps[1..])
  }
}
