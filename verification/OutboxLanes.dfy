/** The outbox rows of one payment on the shared bus: every transaction appends its messages,
    each message goes to the partition that its key hashes to, and nobody else writes under
    the payment's id. */
module OutboxLanes {
  import opened PaymentCore
  import opened Delivery
  import opened DeliveryProofs

  /** Where a message goes. */
  datatype Header = Header(aggregate: Aggregate, partition: Partition)

  function HeaderOf(row: OutboxRow): Header { Header(row.aggregate, row.partition) }

  /** For the payment's key, the partition of each topic. */
  type Lanes = string -> nat

  predicate Addressed(h: Header, id: string, lanes: Lanes) {
    h.aggregate.id == id && h.partition.number == lanes(h.partition.topic)
  }

  ghost predicate Located(rows: seq<OutboxRow>, id: string, lanes: Lanes) {
    forall n | 0 <= n < |rows| && rows[n].aggregate.id == id :: Addressed(HeaderOf(rows[n]), id, lanes)
  }

  /** Nothing has been written under the id yet. */
  predicate Unknown(s: System, id: string) {
    forall n | 0 <= n < |s.rows| :: s.rows[n].aggregate.id != id
  }

  /** The outbox inserts of one transaction. */
  function InsertAll(s: System, headers: seq<Header>, now: int): System
    decreases |headers|
  {
    if headers == [] then s
    else InsertAll(Insert(s, headers[0].aggregate, headers[0].partition, now), headers[1..], now)
  }

  lemma InsertPlaces(s: System, h: Header, now: int, id: string, lanes: Lanes)
    requires Located(s.rows, id, lanes) && Addressed(h, id, lanes)
    ensures var s' := Insert(s, h.aggregate, h.partition, now);
      && s' == s.(rows := s'.rows) && |s'.rows| == |s.rows| + 1 && s'.rows[..|s.rows|] == s.rows
      && HeaderOf(s'.rows[|s.rows|]) == h && Located(s'.rows, id, lanes)
  {
    forall n | 0 <= n < |s.rows| && s.rows[n].aggregate.id == id && s.rows[n].partition.topic == h.partition.topic
      ensures s.rows[n].partition == h.partition
    {
      assert Addressed(HeaderOf(s.rows[n]), id, lanes);
    }
  }

  /** Every message of the transaction gets its row, and nothing else changes. */
  lemma {:induction false} InsertAllKeeps(c: Config, s: System, headers: seq<Header>, now: int, id: string, lanes: Lanes)
    requires c.Valid() && Inv(c, s) && Located(s.rows, id, lanes)
    requires forall i | 0 <= i < |headers| :: Addressed(headers[i], id, lanes)
    ensures var s' := InsertAll(s, headers, now);
      && Inv(c, s') && Located(s'.rows, id, lanes)
      && s' == s.(rows := s'.rows) && |s'.rows| == |s.rows| + |headers| && s'.rows[..|s.rows|] == s.rows
      && (forall i | 0 <= i < |headers| :: HeaderOf(s'.rows[|s.rows| + i]) == headers[i])
    decreases |headers|
  {
    if headers != [] {
      var next := Insert(s, headers[0].aggregate, headers[0].partition, now);
      InsertPlaces(s, headers[0], now, id, lanes);
      InsertKeeps(c, s, headers[0].aggregate, headers[0].partition, now);
      InsertAllKeeps(c, next, headers[1..], now, id, lanes);
      var s' := InsertAll(s, headers, now);
      assert s'.rows[..|s.rows|] == s'.rows[..|next.rows|][..|s.rows|];
      assert s'.rows[|s.rows|] == s'.rows[..|next.rows|][|s.rows|];
      forall i | 0 <= i < |headers| ensures HeaderOf(s'.rows[|s.rows| + i]) == headers[i] {
        if i > 0 { assert headers[i] == headers[1..][i - 1]; }
      }
    }
  }

  // ---- What the bus does in between -------------------------------------------

  /** The message at the committed offset. */
  function Cursor(s: System, at: Partition): Option<nat> {
    var channel := ChannelOf(s, at);
    if channel.committed < |channel.log| then Some(channel.log[channel.committed]) else None
  }

  /** A step that neither writes under the id nor disposes of one of the given messages. */
  predicate Foreign(s: System, step: Step, id: string, own: set<nat>) {
    match step
    case InsertStep(aggregate, _, _) => aggregate.id != id
    case ConsumeStep(at, _) => Cursor(s, at).Some? ==> Cursor(s, at).value !in own
    case _ => true
  }

  /** What has been decided about row n is the same. */
  predicate SameFate(s: System, s': System, n: nat) {
    (n in s'.inbox <==> n in s.inbox) && (Rejected(n) in s'.history <==> Rejected(n) in s.history)
  }

  lemma CommitAdvances(c: Config, s: System, relay: nat)
    requires Inv(c, s)
    ensures Advanced(s.rows, CommitBatch(s, relay).rows)
  {
    if relay in s.batches && |s.batches[relay].updates| == |s.batches[relay].claimed| {
      var b := s.batches[relay];
      assert BatchFits(c, s, relay);
      forall n | 0 <= n < |s.rows|
        ensures var row := CommitBatch(s, relay).rows[n]; row.aggregate == s.rows[n].aggregate && row.partition == s.rows[n].partition
        ensures s.rows[n].published ==> CommitBatch(s, relay).rows[n].published
      {
        WriteAt(s.rows, b.claimed, b.updates, n);
        if n in b.claimed {
          var i :| 0 <= i < |b.claimed| && b.claimed[i] == n;
          assert UpdateFits(c, s, b.claimed[i], b.updates[i]) && ClaimFits(s.rows, n);
        }
      }
    }
  }

  /** A foreign step leaves the payment's rows where they are and resolves none of them. */
  lemma ForeignKeeps(c: Config, s: System, step: Step, id: string, lanes: Lanes, own: set<nat>)
    requires c.Valid() && Inv(c, s) && Located(s.rows, id, lanes) && Foreign(s, step, id, own)
    ensures var s' := Perform(c, s, step);
      && Inv(c, s') && Advanced(s.rows, s'.rows) && Located(s'.rows, id, lanes)
      && (forall n | n in own :: SameFate(s, s', n))
  {
    PerformKeeps(c, s, step);
    match step
    case CommitStep(relay) =>
      CommitAdvances(c, s, relay);
      LocatedAdvances(s.rows, CommitBatch(s, relay).rows, id, lanes);
    case ConsumeStep(at, verdict) => ConsumeResolves(s, at, verdict, own);
    case InsertStep(aggregate, partition, now) =>
    case RedriveStep(n, now) => LocatedAdvances(s.rows, Redrive(s, n, now).rows, id, lanes);
    case PublishStep(relay, outcome, now, clock) => PublishResolvesNothing(c, s, relay, outcome, now, clock);
    case _ =>
  }

  lemma LocatedAdvances(rows: seq<OutboxRow>, rows': seq<OutboxRow>, id: string, lanes: Lanes)
    requires Advanced(rows, rows') && |rows'| == |rows| && Located(rows, id, lanes)
    ensures Located(rows', id, lanes)
  {
    forall n | 0 <= n < |rows'| && rows'[n].aggregate.id == id ensures Addressed(HeaderOf(rows'[n]), id, lanes) {
      assert Addressed(HeaderOf(rows[n]), id, lanes);
    }
  }

  lemma PublishResolvesNothing(c: Config, s: System, relay: nat, outcome: Outcome, now: int, clock: nat)
    requires c.Valid()
    ensures var s' := Publish(c, s, relay, outcome, now, clock); s'.rows == s.rows && s'.inbox == s.inbox && s'.history == s.history
  {}

  lemma ConsumeResolves(s: System, at: Partition, verdict: Verdict, own: set<nat>)
    requires Foreign(s, ConsumeStep(at, verdict), "", own)
    ensures forall n | n in own :: SameFate(s, Consume(s, at, verdict), n)
  {}

  /** Only rows that exist have been resolved. */
  lemma ResolvedExists(c: Config, s: System, n: nat)
    requires Inv(c, s) && Resolved(s, n)
    ensures n < |s.rows|
  {
    if n in s.inbox {
      var k :| 0 <= k < |s.history| && s.history[k] == Applied(n);
      assert Read(s, s.history[k].event);
    } else {
      var k :| 0 <= k < |s.history| && s.history[k] == Rejected(n);
      assert Read(s, s.history[k].event);
    }
  }

  // ---- Messages and their rows ------------------------------------------------

  /** Message j of the payment is outbox row place[j]. */
  ghost predicate Placed(rows: seq<OutboxRow>, place: seq<nat>, headers: seq<Header>) {
    && |place| == |headers|
    && (forall i, j | 0 <= i < j < |place| :: place[i] < place[j])
    && (forall j | 0 <= j < |place| :: place[j] < |rows| && HeaderOf(rows[place[j]]) == headers[j])
  }

  function Positions(first: nat, count: nat): seq<nat> { seq(count, i requires 0 <= i => first + i) }

  lemma PlacedAdvances(rows: seq<OutboxRow>, rows': seq<OutboxRow>, place: seq<nat>, headers: seq<Header>)
    requires Placed(rows, place, headers) && Advanced(rows, rows')
    ensures Placed(rows', place, headers)
  {}

  /** New messages take the positions of their rows. */
  lemma PlacedGrows(rows: seq<OutboxRow>, rows': seq<OutboxRow>, place: seq<nat>, headers: seq<Header>, first: nat, added: seq<Header>)
    requires Placed(rows, place, headers) && |rows| <= first && first + |added| <= |rows'| && rows'[..|rows|] == rows
    requires forall i | 0 <= i < |added| :: HeaderOf(rows'[first + i]) == added[i]
    ensures Placed(rows', place + Positions(first, |added|), headers + added)
  {
    assert forall j | 0 <= j < |place| :: rows'[place[j]] == rows'[..|rows|][place[j]];
  }

  /** A message is read only when every earlier one with its header has been resolved. */
  lemma EarlierMessages(c: Config, s: System, at: Partition, place: seq<nat>, headers: seq<Header>, j: nat, k: nat)
    requires Inv(c, s) && Placed(s.rows, place, headers) && j < k < |place| && headers[j] == headers[k]
    requires Cursor(s, at) == Some(place[k])
    ensures Resolved(s, place[j])
  {
    assert HeaderOf(s.rows[place[j]]) == HeaderOf(s.rows[place[k]]);
    EarlierIsResolved(c, s, at, place[j]);
  }
}
