/** One payout on the bus: its transactions append to the outbox, and the command worker takes
    its commands from the consumer's cursor, through the inbox. Every such run is a run of the
    payout protocol with commands worked in order. */
module PayoutDelivery {
  import opened PaymentCore
  import opened Ledger
  import opened PayoutSaga
  import opened Provider
  import opened PayoutProtocol
  import opened PayoutInvariant
  import opened PayoutTheorems
  import opened PayoutOrder
  import Delivery
  import DeliveryProofs
  import opened OutboxLanes

  /** The payout, the bus, the outbox position of each of its messages, and the
      settlement.execute command whose submission is under way. */
  datatype Pipeline = Pipeline(bus: Delivery.System, row: Row, place: seq<nat>, active: Option<nat>)

  function AddressOf(id: string, lanes: Lanes, m: Message): Header {
    match m
    case Event(_) => Header(Delivery.Aggregate("payout", id), Delivery.Partition("payout-events", lanes("payout-events")))
    case Order(_) => Header(Delivery.Aggregate("payment", id), Delivery.Partition("settlement-commands", lanes("settlement-commands")))
    case Public(_) => Header(Delivery.Aggregate("payment", id), Delivery.Partition("payment-events", lanes("payment-events")))
  }

  function Headers(id: string, lanes: Lanes, outbox: seq<OutboxEvent>): seq<Header> {
    seq(|outbox|, i requires 0 <= i < |outbox| => AddressOf(id, lanes, outbox[i].body))
  }

  /** A transaction leaves `row`: the messages it has added get their outbox rows. */
  function Commit(id: string, lanes: Lanes, x: Pipeline, row: Row, now: int): Pipeline {
    if |row.outbox| <= |x.row.outbox| then x.(row := row)
    else
      var added := Headers(id, lanes, row.outbox[|x.row.outbox|..]);
      x.(bus := InsertAll(x.bus, added, now), row := row, place := x.place + Positions(|x.bus.rows|, |added|))
  }

  // ---- Steps ------------------------------------------------------------------

  /** A relay, consumer or foreign step on the bus; any transaction of the payout other than
      the worker's; the worker on the command at the cursor of a partition; the end of its
      submission, applied or permanently refused. */
  datatype Stage =
    | OnBus(step: Delivery.Step)
    | Local(s: Step, now: int)
    | Handle(at: Delivery.Partition, k: nat, decision: Decision, id: nat, now: int)
    | Finish(at: Delivery.Partition, clash: bool, now: int)
    | Abandon(at: Delivery.Partition)

  function Commands(x: Pipeline): set<nat> {
    set j | 0 <= j < |x.place| && j < |x.row.outbox| && x.row.outbox[j].body.Order? :: x.place[j]
  }

  /** The worker reads command k: it is at the cursor and not yet in the inbox. */
  predicate Reads(x: Pipeline, at: Delivery.Partition, k: nat) {
    && k < |x.place| && k < |x.row.outbox| && x.row.outbox[k].body.Order?
    && Cursor(x.bus, at) == Some(x.place[k]) && x.place[k] !in x.bus.inbox
  }

  /** Processor.Process around CommandHandler.Handle: the inbox row commits with the handler's
      writes, a permanent error is recorded without them, any other error leaves nothing. */
  function HandleAt(t: Timeouts, id: string, lanes: Lanes, x: Pipeline, at: Delivery.Partition, k: nat, decision: Decision, seed: nat, now: int): Pipeline {
    if !Reads(x, at, k) then x
    else
      var worked := Perform(t, x.row, Work(k, decision, seed));
      match OutcomeOf(x.row, x.row.outbox[k].body.command, decision)
      case Committed => Commit(id, lanes, x.(bus := Delivery.Consume(x.bus, at, Delivery.Success)), worked, now)
      case Rejected => x.(bus := Delivery.Consume(x.bus, at, Delivery.Permanent))
      case Retried => x
      case Submitting => x.(row := worked, active := Some(k))
  }

  /** ApplyResult found the submission's reference free. */
  predicate Applies(r: Row) {
    r.worker.Finished? && (HasSubmission(r.submissions, r.worker.command) || !ReferenceTaken(r.submissions, r.worker.result.reference))
  }

  /** The submission ends; its inbox row is kept if its result applies. */
  function Accept(x: Pipeline, at: Delivery.Partition): Pipeline {
    x.(bus := if Applies(x.row) then Delivery.Consume(x.bus, at, Delivery.Success) else x.bus, active := None)
  }

  function FinishAt(t: Timeouts, id: string, lanes: Lanes, x: Pipeline, at: Delivery.Partition, clash: bool, now: int): Pipeline {
    if x.active.None? || !Reads(x, at, x.active.value) || !x.row.worker.Finished? then x
    else
      Commit(id, lanes, Accept(x, at), Perform(t, x.row, Apply(clash)), now)
  }

  /** A submission that the provider refused for good ends in a permanent error. */
  function AbandonAt(x: Pipeline, at: Delivery.Partition): Pipeline {
    if x.active.None? || !Reads(x, at, x.active.value) || x.row.worker != Idle then x
    else x.(bus := Delivery.Consume(x.bus, at, Delivery.Permanent), active := None)
  }

  function Advance(c: Delivery.Config, t: Timeouts, id: string, lanes: Lanes, x: Pipeline, stage: Stage): Pipeline
    requires c.Valid()
  {
    match stage
    case OnBus(step) => if Foreign(x.bus, step, id, Commands(x)) then x.(bus := Delivery.Perform(c, x.bus, step)) else x
    case Local(s, now) =>
      if s.Work? || s.Apply? then x
      else Commit(id, lanes, if s.Crash? then x.(active := None) else x, Perform(t, x.row, s), now)
    case Handle(at, k, decision, seed, now) => HandleAt(t, id, lanes, x, at, k, decision, seed, now)
    case Finish(at, clash, now) => FinishAt(t, id, lanes, x, at, clash, now)
    case Abandon(at) => AbandonAt(x, at)
  }

  function RunStages(c: Delivery.Config, t: Timeouts, id: string, lanes: Lanes, x: Pipeline, stages: seq<Stage>): Pipeline
    requires c.Valid()
    decreases |stages|
  {
    if stages == [] then x else RunStages(c, t, id, lanes, Advance(c, t, id, lanes, x, stages[0]), stages[1..])
  }

  /** The payment is inserted, with its first messages, on a bus that has none of its id. */
  function Begin(id: string, lanes: Lanes, bus: Delivery.System, row: Row, now: int): Pipeline {
    Commit(id, lanes, Pipeline(bus, row.(outbox := []), [], None), row, now)
  }

  // ---- The invariant ----------------------------------------------------------

  /** `done` holds every command that has been resolved or is under way. */
  ghost predicate PipelineInv(c: Delivery.Config, id: string, lanes: Lanes, x: Pipeline, done: set<nat>) {
    && DeliveryProofs.Inv(c, x.bus) && Located(x.bus.rows, id, lanes)
    && Placed(x.bus.rows, x.place, Headers(id, lanes, x.row.outbox))
    && (forall j | 0 <= j < |x.place| && x.row.outbox[j].body.Order? && Delivery.Resolved(x.bus, x.place[j]) :: j in done)
    && (x.active.Some? ==> x.active.value in done)
  }

  lemma HeadersSplit(id: string, lanes: Lanes, outbox: seq<OutboxEvent>, n: nat)
    requires n <= |outbox|
    ensures Headers(id, lanes, outbox) == Headers(id, lanes, outbox[..n]) + Headers(id, lanes, outbox[n..])
    ensures forall i | 0 <= i < |outbox[n..]| :: Addressed(Headers(id, lanes, outbox[n..])[i], id, lanes)
  {}

  /** Committing a transaction that only adds messages keeps the invariant: the new rows are
      not resolved. */
  lemma CommitKeeps(c: Delivery.Config, id: string, lanes: Lanes, x: Pipeline, row: Row, now: int, done: set<nat>)
    requires c.Valid() && PipelineInv(c, id, lanes, x, done) && x.row.outbox <= row.outbox
    ensures PipelineInv(c, id, lanes, Commit(id, lanes, x, row, now), done) && Commit(id, lanes, x, row, now).row == row
  {
    var n := |x.row.outbox|;
    if |row.outbox| <= n {
      assert row.outbox == x.row.outbox;
    } else {
      assert row.outbox[..n] == x.row.outbox;
      HeadersSplit(id, lanes, row.outbox, n);
      var added := Headers(id, lanes, row.outbox[n..]);
      InsertAllKeeps(c, x.bus, added, now, id, lanes);
      var x' := Commit(id, lanes, x, row, now);
      PlacedGrows(x.bus.rows, x'.bus.rows, x.place, Headers(id, lanes, x.row.outbox), |x.bus.rows|, added);
      forall j | 0 <= j < |x'.place| && row.outbox[j].body.Order? && Delivery.Resolved(x'.bus, x'.place[j])
        ensures j in done
      {
        OldMessage(c, x, x'.bus, |added|, j);
      }
    }
  }

  /** A resolved message is not one of the new ones. */
  lemma OldMessage(c: Delivery.Config, x: Pipeline, bus: Delivery.System, added: nat, j: nat)
    requires DeliveryProofs.Inv(c, x.bus) && bus.inbox == x.bus.inbox && bus.history == x.bus.history
    requires j < |x.place| + added && Delivery.Resolved(bus, (x.place + Positions(|x.bus.rows|, added))[j])
    ensures j < |x.place| && Delivery.Resolved(x.bus, x.place[j])
  {
    var n := (x.place + Positions(|x.bus.rows|, added))[j];
    assert Delivery.Resolved(x.bus, n);
    ResolvedExists(c, x.bus, n);
  }

  lemma BusKeeps(c: Delivery.Config, id: string, lanes: Lanes, x: Pipeline, step: Delivery.Step, done: set<nat>)
    requires c.Valid() && PipelineInv(c, id, lanes, x, done) && Foreign(x.bus, step, id, Commands(x))
    ensures PipelineInv(c, id, lanes, x.(bus := Delivery.Perform(c, x.bus, step)), done)
  {
    ForeignKeeps(c, x.bus, step, id, lanes, Commands(x));
    var bus := Delivery.Perform(c, x.bus, step);
    PlacedAdvances(x.bus.rows, bus.rows, x.place, Headers(id, lanes, x.row.outbox));
    forall j | 0 <= j < |x.place| && x.row.outbox[j].body.Order? && Delivery.Resolved(bus, x.place[j])
      ensures j in done
    {
      assert x.place[j] in Commands(x) && SameFate(x.bus, bus, x.place[j]);
    }
  }

  /** Resolving the command at the cursor keeps the invariant once it counts as done. */
  lemma ResolveKeeps(c: Delivery.Config, id: string, lanes: Lanes, x: Pipeline, at: Delivery.Partition, verdict: Delivery.Verdict, k: nat, done: set<nat>)
    requires c.Valid() && PipelineInv(c, id, lanes, x, done) && Reads(x, at, k) && k in done
    ensures PipelineInv(c, id, lanes, x.(bus := Delivery.Consume(x.bus, at, verdict)), done)
  {
    DeliveryProofs.ConsumeKeeps(c, x.bus, at, verdict);
  }

  /** A read command has every earlier command of the payout behind it. */
  lemma ReadsInOrder(c: Delivery.Config, id: string, lanes: Lanes, x: Pipeline, at: Delivery.Partition, k: nat, done: set<nat>)
    requires PipelineInv(c, id, lanes, x, done) && Reads(x, at, k)
    ensures forall j | 0 <= j < |x.row.outbox| && j < k && x.row.outbox[j].body.Order? :: j in done
  {
    forall j | 0 <= j < |x.row.outbox| && j < k && x.row.outbox[j].body.Order?
      ensures j in done
    {
      EarlierMessages(c, x.bus, at, x.place, Headers(id, lanes, x.row.outbox), j, k);
    }
  }

  lemma RejectedChangesNothing(t: Timeouts, r: Row, k: nat, decision: Decision, id: nat)
    requires k < |r.outbox| && r.outbox[k].body.Order?
    requires var outcome := OutcomeOf(r, r.outbox[k].body.command, decision); outcome == Rejected || outcome == Retried
    ensures Perform(t, r, Work(k, decision, id)) == r
  {}

  lemma PrepareSendsNothing(r: Row, command: EventId)
    ensures Prepare(r, command).outbox == r.outbox
  {}

  // ---- Projection -------------------------------------------------------------

  function DoneWith(done: set<nat>, steps: seq<Step>): set<nat> {
    if |steps| == 1 && steps[0].Work? then done + {steps[0].i} else done
  }

  /** At most one protocol step takes x to x', and it works commands in order. */
  ghost predicate Simulates(c: Delivery.Config, t: Timeouts, id: string, lanes: Lanes, x: Pipeline, done: set<nat>, x': Pipeline, steps: seq<Step>) {
    && |steps| <= 1 && (|steps| == 1 && steps[0].Work? ==> steps[0].i < |x.row.outbox|)
    && PipelineInv(c, id, lanes, x', DoneWith(done, steps)) && RowInv(x'.row)
    && x'.row == Run(t, x.row, steps) && InOrder(t, x.row, done, steps)
  }

  lemma OneStep(t: Timeouts, r: Row, done: set<nat>, s: Step)
    requires s.Work? ==> forall j | 0 <= j < |r.outbox| && j < s.i && r.outbox[j].body.Order? :: j in done
    ensures Run(t, r, [s]) == Perform(t, r, s) && InOrder(t, r, done, [s])
  {
    assert [s][1..] == [];
  }

  /** A transaction other than the worker's. */
  lemma LocalSimulates(c: Delivery.Config, t: Timeouts, id: string, lanes: Lanes, x: Pipeline, done: set<nat>, s: Step, now: int)
    requires c.Valid() && t.Valid() && PipelineInv(c, id, lanes, x, done) && RowInv(x.row) && !s.Work?
    ensures Simulates(c, t, id, lanes, x, done, Commit(id, lanes, x, Perform(t, x.row, s), now), [s])
  {
    StepExtends(t, x.row, s);
    PerformKeeps(t, x.row, s);
    CommitKeeps(c, id, lanes, x, Perform(t, x.row, s), now, done);
    OneStep(t, x.row, done, s);
  }

  /** A command that commits with its inbox row. */
  lemma CommittedSimulates(c: Delivery.Config, t: Timeouts, id: string, lanes: Lanes, x: Pipeline, done: set<nat>,
                           at: Delivery.Partition, k: nat, decision: Decision, seed: nat, now: int)
    requires c.Valid() && t.Valid() && PipelineInv(c, id, lanes, x, done) && RowInv(x.row) && Reads(x, at, k)
    ensures var s := Work(k, decision, seed);
      Simulates(c, t, id, lanes, x, done, Commit(id, lanes, x.(bus := Delivery.Consume(x.bus, at, Delivery.Success)), Perform(t, x.row, s), now), [s])
  {
    var s := Work(k, decision, seed);
    var worked, read := Perform(t, x.row, s), x.(bus := Delivery.Consume(x.bus, at, Delivery.Success));
    StepExtends(t, x.row, s);
    PerformKeeps(t, x.row, s);
    assert PipelineInv(c, id, lanes, x, done + {k});
    ResolveKeeps(c, id, lanes, x, at, Delivery.Success, k, done + {k});
    CommitKeeps(c, id, lanes, read, worked, now, done + {k});
    ReadsInOrder(c, id, lanes, x, at, k, done);
    OneStep(t, x.row, done, s);
  }

  lemma RejectedSimulates(c: Delivery.Config, t: Timeouts, id: string, lanes: Lanes, x: Pipeline, done: set<nat>,
                          at: Delivery.Partition, k: nat, decision: Decision, seed: nat)
    requires c.Valid() && t.Valid() && PipelineInv(c, id, lanes, x, done) && RowInv(x.row) && Reads(x, at, k)
    requires OutcomeOf(x.row, x.row.outbox[k].body.command, decision) == Rejected
    ensures Simulates(c, t, id, lanes, x, done, x.(bus := Delivery.Consume(x.bus, at, Delivery.Permanent)), [Work(k, decision, seed)])
  {
    RejectedChangesNothing(t, x.row, k, decision, seed);
    assert PipelineInv(c, id, lanes, x, done + {k});
    ResolveKeeps(c, id, lanes, x, at, Delivery.Permanent, k, done + {k});
    ReadsInOrder(c, id, lanes, x, at, k, done);
    OneStep(t, x.row, done, Work(k, decision, seed));
  }

  lemma SubmittingSimulates(c: Delivery.Config, t: Timeouts, id: string, lanes: Lanes, x: Pipeline, done: set<nat>,
                            at: Delivery.Partition, k: nat, decision: Decision, seed: nat)
    requires c.Valid() && t.Valid() && PipelineInv(c, id, lanes, x, done) && RowInv(x.row) && Reads(x, at, k)
    requires x.row.outbox[k].body.command == SettlementExecute
    ensures Simulates(c, t, id, lanes, x, done, x.(row := Perform(t, x.row, Work(k, decision, seed)), active := Some(k)), [Work(k, decision, seed)])
  {
    var s := Work(k, decision, seed);
    PerformKeeps(t, x.row, s);
    PrepareSendsNothing(x.row, x.row.outbox[k].id);
    ReadsInOrder(c, id, lanes, x, at, k, done);
    OneStep(t, x.row, done, s);
  }

  lemma AcceptKeeps(c: Delivery.Config, id: string, lanes: Lanes, x: Pipeline, done: set<nat>, at: Delivery.Partition)
    requires c.Valid() && PipelineInv(c, id, lanes, x, done) && x.active.Some? && Reads(x, at, x.active.value)
    ensures PipelineInv(c, id, lanes, Accept(x, at), done)
  {
    ResolveKeeps(c, id, lanes, x, at, Delivery.Success, x.active.value, done);
  }

  /** Whatever happens next amounts to at most one protocol step. */
  lemma StageSimulates(c: Delivery.Config, t: Timeouts, id: string, lanes: Lanes, x: Pipeline, done: set<nat>, stage: Stage) returns (steps: seq<Step>)
    requires c.Valid() && t.Valid() && PipelineInv(c, id, lanes, x, done) && RowInv(x.row)
    ensures Simulates(c, t, id, lanes, x, done, Advance(c, t, id, lanes, x, stage), steps)
  {
    match stage
    case OnBus(step) =>
      if Foreign(x.bus, step, id, Commands(x)) { BusKeeps(c, id, lanes, x, step, done); }
      steps := [];
    case Local(s, now) => steps := LocalStage(c, t, id, lanes, x, done, stage);
    case Handle(at, k, decision, seed, now) => steps := HandleSimulates(c, t, id, lanes, x, done, at, k, decision, seed, now);
    case Finish(at, clash, now) => steps := FinishStage(c, t, id, lanes, x, done, at, clash, now);
    case Abandon(at) =>
      if AbandonAt(x, at) != x { ResolveKeeps(c, id, lanes, x, at, Delivery.Permanent, x.active.value, done); }
      steps := [];
  }

  lemma LocalStage(c: Delivery.Config, t: Timeouts, id: string, lanes: Lanes, x: Pipeline, done: set<nat>, stage: Stage) returns (steps: seq<Step>)
    requires c.Valid() && t.Valid() && PipelineInv(c, id, lanes, x, done) && RowInv(x.row) && stage.Local?
    ensures Simulates(c, t, id, lanes, x, done, Advance(c, t, id, lanes, x, stage), steps)
  {
    if stage.s.Work? || stage.s.Apply? {
      steps := [];
    } else {
      steps := [stage.s];
      LocalSimulates(c, t, id, lanes, if stage.s.Crash? then x.(active := None) else x, done, stage.s, stage.now);
    }
  }

  lemma FinishStage(c: Delivery.Config, t: Timeouts, id: string, lanes: Lanes, x: Pipeline, done: set<nat>, at: Delivery.Partition, clash: bool, now: int)
    returns (steps: seq<Step>)
    requires c.Valid() && t.Valid() && PipelineInv(c, id, lanes, x, done) && RowInv(x.row)
    ensures Simulates(c, t, id, lanes, x, done, FinishAt(t, id, lanes, x, at, clash, now), steps)
  {
    if x.active.Some? && Reads(x, at, x.active.value) && x.row.worker.Finished? {
      steps := [Apply(clash)];
      AcceptKeeps(c, id, lanes, x, done, at);
      LocalSimulates(c, t, id, lanes, Accept(x, at), done, Apply(clash), now);
    } else {
      steps := [];
    }
  }

  lemma HandleSimulates(c: Delivery.Config, t: Timeouts, id: string, lanes: Lanes, x: Pipeline, done: set<nat>,
                        at: Delivery.Partition, k: nat, decision: Decision, seed: nat, now: int) returns (steps: seq<Step>)
    requires c.Valid() && t.Valid() && PipelineInv(c, id, lanes, x, done) && RowInv(x.row)
    ensures Simulates(c, t, id, lanes, x, done, HandleAt(t, id, lanes, x, at, k, decision, seed, now), steps)
  {
    if !Reads(x, at, k) {
      return [];
    }
    steps := [Work(k, decision, seed)];
    match OutcomeOf(x.row, x.row.outbox[k].body.command, decision)
    case Committed => CommittedSimulates(c, t, id, lanes, x, done, at, k, decision, seed, now);
    case Rejected => RejectedSimulates(c, t, id, lanes, x, done, at, k, decision, seed);
    case Submitting => SubmittingSimulates(c, t, id, lanes, x, done, at, k, decision, seed);
    case Retried => steps := [];
  }

  /** Putting a step in front of an in-order run. */
  lemma Prepends(t: Timeouts, r: Row, done: set<nat>, first: seq<Step>, rest: seq<Step>)
    requires |first| <= 1 && (|first| == 1 && first[0].Work? ==> first[0].i < |r.outbox|)
    requires InOrder(t, r, done, first) && InOrder(t, Run(t, r, first), DoneWith(done, first), rest)
    ensures InOrder(t, r, done, first + rest) && Run(t, r, first + rest) == Run(t, Run(t, r, first), rest)
  {
    if first == [] {
      assert [] + rest == rest;
    } else {
      assert (first + rest)[1..] == rest && first[1..] == [] && (first + rest)[0] == first[0];
      assert Run(t, r, first) == Perform(t, r, first[0]);
    }
  }

  lemma {:induction false} RunProjects(c: Delivery.Config, t: Timeouts, id: string, lanes: Lanes, x: Pipeline, done: set<nat>, stages: seq<Stage>)
    returns (steps: seq<Step>)
    requires c.Valid() && t.Valid() && PipelineInv(c, id, lanes, x, done) && RowInv(x.row)
    ensures InOrder(t, x.row, done, steps) && RunStages(c, t, id, lanes, x, stages).row == Run(t, x.row, steps)
    decreases |stages|
  {
    if stages == [] {
      steps := [];
    } else {
      var first := StageSimulates(c, t, id, lanes, x, done, stages[0]);
      var rest := RunProjects(c, t, id, lanes, Advance(c, t, id, lanes, x, stages[0]), DoneWith(done, first), stages[1..]);
      Prepends(t, x.row, done, first, rest);
      steps := first + rest;
    }
  }

  lemma BeginInv(c: Delivery.Config, id: string, lanes: Lanes, bus: Delivery.System, row: Row, now: int)
    requires c.Valid() && DeliveryProofs.Inv(c, bus) && Unknown(bus, id)
    ensures PipelineInv(c, id, lanes, Begin(id, lanes, bus, row, now), {}) && Begin(id, lanes, bus, row, now).row == row
  {
    CommitKeeps(c, id, lanes, Pipeline(bus, row.(outbox := []), [], None), row, now, {});
  }

  /** Whatever relays, brokers, consumers and other payments do on the bus, before and
      meanwhile, a payout that is delivered through it ends as an in-order protocol run. */
  lemma DeliveredRunsAreInOrder(c: Delivery.Config, t: Timeouts, id: string, lanes: Lanes, before: seq<Delivery.Step>, r0: Row, now: int, stages: seq<Stage>)
    returns (steps: seq<Step>)
    requires c.Valid() && t.Valid() && Fresh(r0) && Unknown(Delivery.Run(c, Delivery.EMPTY, before), id)
    ensures InOrder(t, r0, {}, steps)
    ensures RunStages(c, t, id, lanes, Begin(id, lanes, Delivery.Run(c, Delivery.EMPTY, before), r0, now), stages).row == Run(t, r0, steps)
  {
    DeliveryProofs.Reached(c, before);
    var bus := Delivery.Run(c, Delivery.EMPTY, before);
    BeginInv(c, id, lanes, bus, r0, now);
    Reached(t, r0, []);
    steps := RunProjects(c, t, id, lanes, Begin(id, lanes, bus, r0, now), {}, stages);
  }

  /** So no delivered payout ever fails its payment when its funds come back. */
  lemma DeliveredReturnsStayProcessing(c: Delivery.Config, t: Timeouts, id: string, lanes: Lanes, before: seq<Delivery.Step>, r0: Row, now: int,
                                       stages: seq<Stage>, reason: string, seed: nat)
    requires c.Valid() && t.Valid() && Fresh(r0) && Unknown(Delivery.Run(c, Delivery.EMPTY, before), id)
    ensures var r := RunStages(c, t, id, lanes, Begin(id, lanes, Delivery.Run(c, Delivery.EMPTY, before), r0, now), stages).row;
      && ReturnPayment(r, reason, seed) == r
      && (r.saga.Some? && r.saga.value.state == Returned ==> r.status == Processing)
  {
    var steps := DeliveredRunsAreInOrder(c, t, id, lanes, before, r0, now, stages);
    ReturnedPayoutsStayProcessing(t, r0, steps, reason, seed);
  }

  // ---- What the inbox sees of a command ---------------------------------------

  lemma {:induction false} InsertsDecideNothing(s: Delivery.System, headers: seq<Header>, now: int)
    ensures InsertAll(s, headers, now).inbox == s.inbox && InsertAll(s, headers, now).history == s.history
    decreases |headers|
  {
    if headers != [] { InsertsDecideNothing(Delivery.Insert(s, headers[0].aggregate, headers[0].partition, now), headers[1..], now); }
  }

  lemma CommitDecidesNothing(id: string, lanes: Lanes, x: Pipeline, row: Row, now: int)
    ensures Commit(id, lanes, x, row, now).bus.inbox == x.bus.inbox && Commit(id, lanes, x, row, now).bus.history == x.bus.history
    ensures Commit(id, lanes, x, row, now).row == row
  {
    if |row.outbox| > |x.row.outbox| { InsertsDecideNothing(x.bus, Headers(id, lanes, row.outbox[|x.row.outbox|..]), now); }
  }

  lemma ConsumeDecides(s: Delivery.System, at: Delivery.Partition, n: nat)
    requires Cursor(s, at) == Some(n) && n !in s.inbox
    ensures Delivery.Consume(s, at, Delivery.Success).history == s.history + [Delivery.Applied(n)]
    ensures Delivery.Consume(s, at, Delivery.Permanent).history == s.history + [Delivery.Rejected(n)]
  {}

  lemma CommittedReplies(t: Timeouts, r: Row, k: nat, decision: Decision, id: nat)
    requires k < |r.outbox| && r.outbox[k].body.Order? && r.outbox[k].body.command != SettlementExecute
    ensures |Perform(t, r, Work(k, decision, id)).outbox| > |r.outbox| <==> OutcomeOf(r, r.outbox[k].body.command, decision) == Committed
  {
    if OutcomeOf(r, r.outbox[k].body.command, decision) != Committed { RejectedChangesNothing(t, r, k, decision, id); }
  }

  /** A command that the worker reads, other than a submission, has taken effect for good iff
      it has left a reply; it stays to be read again iff policy could not decide; and any
      other is rejected for good, without a trace in the payment. */
  lemma HandledCommandsAreDecided(c: Delivery.Config, t: Timeouts, id: string, lanes: Lanes, x: Pipeline, at: Delivery.Partition, k: nat,
                                  decision: Decision, seed: nat, now: int)
    requires Reads(x, at, k) && x.row.outbox[k].body.command != SettlementExecute
    ensures var x' := HandleAt(t, id, lanes, x, at, k, decision, seed, now);
      if x.row.outbox[k].body.command == PolicyEvaluate && decision == PolicyError then x' == x
      else if |x'.row.outbox| > |x.row.outbox| then x'.bus.history == x.bus.history + [Delivery.Applied(x.place[k])]
      else x'.bus.history == x.bus.history + [Delivery.Rejected(x.place[k])] && x'.row == x.row
  {
    var worked := Perform(t, x.row, Work(k, decision, seed));
    CommittedReplies(t, x.row, k, decision, seed);
    ConsumeDecides(x.bus, at, x.place[k]);
    CommitDecidesNothing(id, lanes, x.(bus := Delivery.Consume(x.bus, at, Delivery.Success)), worked, now);
  }
}
