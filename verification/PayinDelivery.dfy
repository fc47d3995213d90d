/** One pay-in on the bus: its transactions append to the outbox, and the command worker takes
    its commands from the consumer's cursor, through the inbox. The cursor of the pay-in
    protocol is then exactly what the inbox has seen, so every such run is a protocol run. */
module PayinDelivery {
  import opened PaymentCore
  import opened Ledger
  import opened Provider
  import opened PayinProtocol
  import opened PayinTheorems
  import Delivery
  import DeliveryProofs
  import opened OutboxLanes

  /** The pay-in, the bus, and the outbox position of each of its commands. */
  datatype Intake = Intake(bus: Delivery.System, payin: Payin, sent: seq<nat>)

  function OnTopic(kind: string, id: string, topic: string, lanes: Lanes): Header {
    Header(Delivery.Aggregate(kind, id), Delivery.Partition(topic, lanes(topic)))
  }

  function CommandHeader(id: string, lanes: Lanes): Header { OnTopic("payment", id, "settlement-commands", lanes) }

  function Repeat(h: Header, count: nat): seq<Header> { seq(count, _ => h) }

  function Grown<T>(before: seq<T>, after: seq<T>): nat { if |before| <= |after| then |after| - |before| else 0 }

  /** The events and notices that a transaction has added. */
  function OtherHeaders(id: string, lanes: Lanes, before: Payin, after: Payin): seq<Header> {
    Repeat(OnTopic("payin", id, "payin-events", lanes), Grown(before.events, after.events))
    + Repeat(OnTopic("payment", id, "payment-events", lanes), Grown(before.notices, after.notices))
  }

  /** A transaction leaves `p`: its new events and notices, and then its new commands, get
      their outbox rows. */
  function Commit(id: string, lanes: Lanes, x: Intake, p: Payin, now: int): Intake {
    var others := OtherHeaders(id, lanes, x.payin, p);
    var commands := Repeat(CommandHeader(id, lanes), Grown(x.payin.commands, p.commands));
    Intake(InsertAll(x.bus, others + commands, now), p, x.sent + Positions(|x.bus.rows| + |others|, |commands|))
  }

  // ---- Steps ------------------------------------------------------------------

  /** A relay, consumer or foreign step on the bus; any transaction of the pay-in other than
      the worker's; the worker on the command at the cursor of a partition; and the end of
      its execution. */
  datatype Stage =
    | OnBus(step: Delivery.Step)
    | Local(s: Step, now: int)
    | Handle(at: Delivery.Partition, k: nat, decision: Decision, id: nat, now: int)
    | Finish(at: Delivery.Partition, k: nat, taken: bool, now: int)

  function Sent(x: Intake): set<nat> { set n | n in x.sent }

  /** The worker reads command k: it is at the cursor and not yet in the inbox. */
  predicate Reads(x: Intake, at: Delivery.Partition, k: nat) {
    && k < |x.sent| && k < |x.payin.commands|
    && Cursor(x.bus, at) == Some(x.sent[k]) && x.sent[k] !in x.bus.inbox
  }

  /** The inbox row commits with the handler's writes, or neither does. */
  function Read(x: Intake, at: Delivery.Partition, after: Payin): Intake {
    if after.next == x.payin.next then x else x.(bus := Delivery.Consume(x.bus, at, Delivery.Success))
  }

  function HandleAt(id: string, lanes: Lanes, x: Intake, at: Delivery.Partition, k: nat, decision: Decision, seed: nat, now: int): Intake {
    if !Reads(x, at, k) || x.payin.worker != Idle then x
    else
      var after := HandleCommand(x.payin, x.payin.commands[k], decision, seed);
      Commit(id, lanes, Read(x, at, after), after, now)
  }

  function FinishAt(id: string, lanes: Lanes, x: Intake, at: Delivery.Partition, k: nat, taken: bool, now: int): Intake {
    if !Reads(x, at, k) || !x.payin.worker.Finished? then x
    else
      var after := Perform(x.payin, Apply(taken));
      Commit(id, lanes, Read(x, at, after), after, now)
  }

  function Advance(c: Delivery.Config, id: string, lanes: Lanes, x: Intake, stage: Stage): Intake
    requires c.Valid()
  {
    match stage
    case OnBus(step) => if Foreign(x.bus, step, id, Sent(x)) then x.(bus := Delivery.Perform(c, x.bus, step)) else x
    case Local(s, now) => if s.Work? || s.Apply? then x else Commit(id, lanes, x, Perform(x.payin, s), now)
    case Handle(at, k, decision, seed, now) => HandleAt(id, lanes, x, at, k, decision, seed, now)
    case Finish(at, k, taken, now) => FinishAt(id, lanes, x, at, k, taken, now)
  }

  function RunStages(c: Delivery.Config, id: string, lanes: Lanes, x: Intake, stages: seq<Stage>): Intake
    requires c.Valid()
    decreases |stages|
  {
    if stages == [] then x else RunStages(c, id, lanes, Advance(c, id, lanes, x, stages[0]), stages[1..])
  }

  /** The pay-in is inserted, with its first messages, on a bus that has none of its id. */
  function Begin(id: string, lanes: Lanes, bus: Delivery.System, p: Payin, now: int): Intake {
    Commit(id, lanes, Intake(bus, p.(events := [], notices := [], commands := []), []), p, now)
  }

  // ---- The invariant ----------------------------------------------------------

  /** The inbox has seen exactly the commands before the protocol's cursor. */
  ghost predicate IntakeInv(c: Delivery.Config, id: string, lanes: Lanes, x: Intake) {
    && DeliveryProofs.Inv(c, x.bus) && Located(x.bus.rows, id, lanes)
    && |x.sent| == |x.payin.commands| && Placed(x.bus.rows, x.sent, Repeat(CommandHeader(id, lanes), |x.sent|))
    && forall k | 0 <= k < |x.sent| :: Decided(x.bus, x.sent[k], k < x.payin.next)
  }

  /** The message has taken effect or not, and was never rejected. */
  predicate Decided(bus: Delivery.System, n: nat, applied: bool) {
    (n in bus.inbox <==> applied) && Delivery.Rejected(n) !in bus.history
  }

  lemma NewCommandsAreUnread(c: Delivery.Config, x: Intake, bus: Delivery.System, first: nat, added: nat, k: nat)
    requires DeliveryProofs.Inv(c, x.bus) && bus.inbox == x.bus.inbox && bus.history == x.bus.history && |x.bus.rows| <= first
    requires |x.sent| <= k < |x.sent| + added
    ensures Decided(bus, (x.sent + Positions(first, added))[k], false)
  {
    var n := (x.sent + Positions(first, added))[k];
    if Delivery.Resolved(x.bus, n) { ResolvedExists(c, x.bus, n); }
  }

  /** Committing a transaction that only adds commands, all of them unread. */
  lemma CommitKeeps(c: Delivery.Config, id: string, lanes: Lanes, x: Intake, p: Payin, now: int)
    requires c.Valid() && |x.payin.commands| <= |p.commands| && p.next <= |x.payin.commands|
    requires IntakeInv(c, id, lanes, x.(payin := x.payin.(next := p.next)))
    ensures IntakeInv(c, id, lanes, Commit(id, lanes, x, p, now))
  {
    AppendKeeps(c, id, lanes, x, p, OtherHeaders(id, lanes, x.payin, p), |p.commands| - |x.payin.commands|, now);
  }

  lemma AppendKeeps(c: Delivery.Config, id: string, lanes: Lanes, x: Intake, p: Payin, others: seq<Header>, added: nat, now: int)
    requires c.Valid() && |p.commands| == |x.sent| + added && p.next <= |x.sent|
    requires IntakeInv(c, id, lanes, x.(payin := x.payin.(next := p.next)))
    requires forall i | 0 <= i < |others| :: Addressed(others[i], id, lanes)
    ensures IntakeInv(c, id, lanes, Intake(InsertAll(x.bus, others + Repeat(CommandHeader(id, lanes), added), now), p,
                                           x.sent + Positions(|x.bus.rows| + |others|, added)))
  {
    var commands, first := Repeat(CommandHeader(id, lanes), added), |x.bus.rows| + |others|;
    var bus, sent := InsertAll(x.bus, others + commands, now), x.sent + Positions(first, added);
    InsertAllKeeps(c, x.bus, others + commands, now, id, lanes);
    forall i | 0 <= i < |commands| ensures HeaderOf(bus.rows[first + i]) == commands[i] {
      assert (others + commands)[|others| + i] == commands[i];
    }
    PlacedGrows(x.bus.rows, bus.rows, x.sent, Repeat(CommandHeader(id, lanes), |x.sent|), first, commands);
    assert Repeat(CommandHeader(id, lanes), |x.sent|) + commands == Repeat(CommandHeader(id, lanes), |sent|);
    forall k | 0 <= k < |sent| ensures Decided(bus, sent[k], k < p.next) {
      if k < |x.sent| {
        assert Decided(x.bus, x.sent[k], k < p.next);
      } else {
        NewCommandsAreUnread(c, x, bus, first, added, k);
      }
    }
  }

  lemma BusKeeps(c: Delivery.Config, id: string, lanes: Lanes, x: Intake, step: Delivery.Step)
    requires c.Valid() && IntakeInv(c, id, lanes, x) && Foreign(x.bus, step, id, Sent(x))
    ensures IntakeInv(c, id, lanes, x.(bus := Delivery.Perform(c, x.bus, step)))
  {
    ForeignKeeps(c, x.bus, step, id, lanes, Sent(x));
    var bus := Delivery.Perform(c, x.bus, step);
    PlacedAdvances(x.bus.rows, bus.rows, x.sent, Repeat(CommandHeader(id, lanes), |x.sent|));
    forall k | 0 <= k < |x.sent| ensures Decided(bus, x.sent[k], k < x.payin.next) {
      assert x.sent[k] in Sent(x) && SameFate(x.bus, bus, x.sent[k]);
    }
  }

  /** The command that the worker reads is the one at the protocol's cursor. */
  lemma ReadsNext(c: Delivery.Config, id: string, lanes: Lanes, x: Intake, at: Delivery.Partition, k: nat)
    requires IntakeInv(c, id, lanes, x) && Reads(x, at, k)
    ensures k == x.payin.next
  {
    assert Decided(x.bus, x.sent[k], k < x.payin.next);
    if x.payin.next < k {
      assert Decided(x.bus, x.sent[x.payin.next], false);
      EarlierMessages(c, x.bus, at, x.sent, Repeat(CommandHeader(id, lanes), |x.sent|), x.payin.next, k);
    }
  }

  /** Reading it moves both cursors together. */
  lemma ResolveKeeps(c: Delivery.Config, id: string, lanes: Lanes, x: Intake, at: Delivery.Partition)
    requires c.Valid() && IntakeInv(c, id, lanes, x) && Reads(x, at, x.payin.next)
    ensures IntakeInv(c, id, lanes, x.(bus := Delivery.Consume(x.bus, at, Delivery.Success), payin := x.payin.(next := x.payin.next + 1)))
  {
    DeliveryProofs.ConsumeKeeps(c, x.bus, at, Delivery.Success);
    var bus := Delivery.Consume(x.bus, at, Delivery.Success);
    forall k | 0 <= k < |x.sent| ensures Decided(bus, x.sent[k], k < x.payin.next + 1) {
      assert Decided(x.bus, x.sent[k], k < x.payin.next);
    }
  }

  // ---- Projection -------------------------------------------------------------

  /** No step takes commands back, and a step commits at most one. */
  lemma StepAppends(p: Payin, s: Step)
    requires Inv(p)
    ensures var p' := Perform(p, s);
      && |p.commands| <= |p'.commands| && p'.next <= |p.commands|
      && (p'.next == p.next || p'.next == p.next + 1) && (!s.Work? && !s.Apply? ==> p'.next == p.next)
  {
    match s
    case Work(decision, id) => if p.worker == Idle && p.next < |p.commands| { WorkAppends(p, p.commands[p.next], decision, id); }
    case Apply(taken) => if p.worker.Finished? { ResultAppends(p, p.worker.result, taken); }
    case Notify(reference, reported) => WebhookAppends(p, reported);
    case _ =>
  }

  predicate SameCursor(p: Payin, p': Payin) { p'.commands == p.commands && p'.next == p.next }

  lemma ResultAppends(p: Payin, result: ExecutionResult, taken: bool)
    ensures var applied := ApplyResult(p, result, taken); applied.Some? ==> SameCursor(p, applied.value)
  {}

  lemma RecordAppends(p: Payin)
    ensures RecordPayin(p).Some? ==> SameCursor(p, RecordPayin(p).value)
  {}

  lemma WebhookAppends(p: Payin, reported: ProviderStatus)
    ensures SameCursor(p, Webhook(p, reported))
  {}

  lemma WorkAppends(p: Payin, message: CommandMessage, decision: Decision, id: nat)
    ensures var p' := HandleCommand(p, message, decision, id); p'.commands == p.commands && (p'.next == p.next || p'.next == p.next + 1)
  {
    ResultAppends(p, FailedResult("", message.reason), false);
    if decision.Reject? { ResultAppends(p, FailedResult("", decision.reason), false); }
    RecordAppends(p);
  }

  /** The worker's step at the cursor, with or without its inbox row. */
  lemma WorkerKeeps(c: Delivery.Config, id: string, lanes: Lanes, x: Intake, at: Delivery.Partition, k: nat, s: Step, now: int)
    requires c.Valid() && IntakeInv(c, id, lanes, x) && Inv(x.payin) && Reads(x, at, k)
    ensures var after := Perform(x.payin, s); IntakeInv(c, id, lanes, Commit(id, lanes, Read(x, at, after), after, now))
  {
    var after := Perform(x.payin, s);
    StepAppends(x.payin, s);
    ReadsNext(c, id, lanes, x, at, k);
    ResolveKeeps(c, id, lanes, x, at);
    CommitKeeps(c, id, lanes, Read(x, at, after), after, now);
  }

  /** At most one protocol step takes the pay-in from x to x'. */
  ghost predicate Simulates(c: Delivery.Config, id: string, lanes: Lanes, x: Intake, x': Intake, steps: seq<Step>) {
    IntakeInv(c, id, lanes, x') && Inv(x'.payin) && |steps| <= 1 && x'.payin == Run(x.payin, steps)
  }

  lemma OneStep(p: Payin, s: Step)
    ensures Run(p, [s]) == Perform(p, s)
  {
    assert [s][1..] == [];
  }

  lemma WorkerSimulates(c: Delivery.Config, id: string, lanes: Lanes, x: Intake, at: Delivery.Partition, k: nat, s: Step, now: int)
    requires c.Valid() && IntakeInv(c, id, lanes, x) && Inv(x.payin) && Reads(x, at, k)
    ensures var after := Perform(x.payin, s); Simulates(c, id, lanes, x, Commit(id, lanes, Read(x, at, after), after, now), [s])
  {
    WorkerKeeps(c, id, lanes, x, at, k, s, now);
    PerformKeeps(x.payin, s);
    OneStep(x.payin, s);
  }

  lemma HandleSimulates(c: Delivery.Config, id: string, lanes: Lanes, x: Intake, at: Delivery.Partition, k: nat, decision: Decision, seed: nat, now: int)
    returns (steps: seq<Step>)
    requires c.Valid() && IntakeInv(c, id, lanes, x) && Inv(x.payin)
    ensures Simulates(c, id, lanes, x, HandleAt(id, lanes, x, at, k, decision, seed, now), steps)
  {
    if !Reads(x, at, k) || x.payin.worker != Idle {
      return [];
    }
    ReadsNext(c, id, lanes, x, at, k);
    steps := [Work(decision, seed)];
    WorkerSimulates(c, id, lanes, x, at, k, Work(decision, seed), now);
  }

  lemma FinishSimulates(c: Delivery.Config, id: string, lanes: Lanes, x: Intake, at: Delivery.Partition, k: nat, taken: bool, now: int)
    returns (steps: seq<Step>)
    requires c.Valid() && IntakeInv(c, id, lanes, x) && Inv(x.payin)
    ensures Simulates(c, id, lanes, x, FinishAt(id, lanes, x, at, k, taken, now), steps)
  {
    if !Reads(x, at, k) || !x.payin.worker.Finished? {
      return [];
    }
    steps := [Apply(taken)];
    WorkerSimulates(c, id, lanes, x, at, k, Apply(taken), now);
  }

  lemma LocalSimulates(c: Delivery.Config, id: string, lanes: Lanes, x: Intake, s: Step, now: int)
    requires c.Valid() && IntakeInv(c, id, lanes, x) && Inv(x.payin) && !s.Work? && !s.Apply?
    ensures Simulates(c, id, lanes, x, Commit(id, lanes, x, Perform(x.payin, s), now), [s])
  {
    StepAppends(x.payin, s);
    CommitKeeps(c, id, lanes, x, Perform(x.payin, s), now);
    PerformKeeps(x.payin, s);
    OneStep(x.payin, s);
  }

  /** Whatever happens next amounts to at most one protocol step. */
  lemma StageSimulates(c: Delivery.Config, id: string, lanes: Lanes, x: Intake, stage: Stage) returns (steps: seq<Step>)
    requires c.Valid() && IntakeInv(c, id, lanes, x) && Inv(x.payin)
    ensures Simulates(c, id, lanes, x, Advance(c, id, lanes, x, stage), steps)
  {
    steps := [];
    match stage
    case OnBus(step) => if Foreign(x.bus, step, id, Sent(x)) { BusKeeps(c, id, lanes, x, step); }
    case Local(s, now) =>
      if !s.Work? && !s.Apply? {
        steps := [s];
        LocalSimulates(c, id, lanes, x, s, now);
      }
    case Handle(at, k, decision, seed, now) => steps := HandleSimulates(c, id, lanes, x, at, k, decision, seed, now);
    case Finish(at, k, taken, now) => steps := FinishSimulates(c, id, lanes, x, at, k, taken, now);
  }

  lemma Prepends(p: Payin, first: seq<Step>, rest: seq<Step>)
    requires |first| <= 1
    ensures Run(p, first + rest) == Run(Run(p, first), rest)
  {
    if first == [] {
      assert [] + rest == rest;
    } else {
      assert (first + rest)[1..] == rest && first[1..] == [] && (first + rest)[0] == first[0];
    }
  }

  lemma {:induction false} RunProjects(c: Delivery.Config, id: string, lanes: Lanes, x: Intake, stages: seq<Stage>) returns (steps: seq<Step>)
    requires c.Valid() && IntakeInv(c, id, lanes, x) && Inv(x.payin)
    ensures RunStages(c, id, lanes, x, stages).payin == Run(x.payin, steps)
    ensures IntakeInv(c, id, lanes, RunStages(c, id, lanes, x, stages)) && Inv(RunStages(c, id, lanes, x, stages).payin)
    decreases |stages|
  {
    if stages == [] {
      steps := [];
    } else {
      var first := StageSimulates(c, id, lanes, x, stages[0]);
      var rest := RunProjects(c, id, lanes, Advance(c, id, lanes, x, stages[0]), stages[1..]);
      Prepends(x.payin, first, rest);
      steps := first + rest;
    }
  }

  lemma BeginInv(c: Delivery.Config, id: string, lanes: Lanes, bus: Delivery.System, p: Payin, now: int)
    requires c.Valid() && DeliveryProofs.Inv(c, bus) && Unknown(bus, id) && p.next == 0
    ensures IntakeInv(c, id, lanes, Begin(id, lanes, bus, p, now))
  {
    CommitKeeps(c, id, lanes, Intake(bus, p.(events := [], notices := [], commands := []), []), p, now);
  }

  /** Whatever relays, brokers, consumers and other payments do on the bus, before and
      meanwhile, a pay-in that is delivered through it ends as a protocol run, and the inbox
      holds exactly the commands that this run has consumed. */
  lemma DeliveredRunsAreProtocolRuns(c: Delivery.Config, id: string, lanes: Lanes, before: seq<Delivery.Step>, p0: Payin, now: int, stages: seq<Stage>)
    returns (steps: seq<Step>)
    requires c.Valid() && Fresh(p0) && Unknown(Delivery.Run(c, Delivery.EMPTY, before), id)
    ensures var x := RunStages(c, id, lanes, Begin(id, lanes, Delivery.Run(c, Delivery.EMPTY, before), p0, now), stages);
      && x.payin == Run(p0, steps) && |x.sent| == |x.payin.commands|
      && forall k | 0 <= k < |x.sent| :: x.sent[k] in x.bus.inbox <==> k < x.payin.next
  {
    var x0 := Begin(id, lanes, Delivery.Run(c, Delivery.EMPTY, before), p0, now);
    Begun(c, id, lanes, before, p0, now);
    steps := RunProjects(c, id, lanes, x0, stages);
    InboxIsCursor(c, id, lanes, RunStages(c, id, lanes, x0, stages));
  }

  lemma Begun(c: Delivery.Config, id: string, lanes: Lanes, before: seq<Delivery.Step>, p0: Payin, now: int)
    requires c.Valid() && Fresh(p0) && Unknown(Delivery.Run(c, Delivery.EMPTY, before), id)
    ensures var x0 := Begin(id, lanes, Delivery.Run(c, Delivery.EMPTY, before), p0, now);
      IntakeInv(c, id, lanes, x0) && x0.payin == p0 && Inv(p0)
  {
    DeliveryProofs.Reached(c, before);
    BeginInv(c, id, lanes, Delivery.Run(c, Delivery.EMPTY, before), p0, now);
    Reached(p0, []);
  }

  lemma InboxIsCursor(c: Delivery.Config, id: string, lanes: Lanes, x: Intake)
    requires IntakeInv(c, id, lanes, x)
    ensures |x.sent| == |x.payin.commands| && forall k | 0 <= k < |x.sent| :: x.sent[k] in x.bus.inbox <==> k < x.payin.next
  {
    assert forall k | 0 <= k < |x.sent| :: Decided(x.bus, x.sent[k], k < x.payin.next);
  }

  /** So success is final for every delivered pay-in. */
  lemma DeliveredSuccessIsFinal(c: Delivery.Config, id: string, lanes: Lanes, before: seq<Delivery.Step>, p0: Payin, now: int, stages: seq<Stage>, later: seq<Stage>)
    requires c.Valid() && Fresh(p0) && Unknown(Delivery.Run(c, Delivery.EMPTY, before), id)
    requires RunStages(c, id, lanes, Begin(id, lanes, Delivery.Run(c, Delivery.EMPTY, before), p0, now), stages).payin.status == Succeeded
    ensures var x := RunStages(c, id, lanes, Begin(id, lanes, Delivery.Run(c, Delivery.EMPTY, before), p0, now), stages);
      var p := RunStages(c, id, lanes, x, later).payin; p.status == Succeeded && p.journals == [PayinJournal]
  {
    var x0 := Begin(id, lanes, Delivery.Run(c, Delivery.EMPTY, before), p0, now);
    Begun(c, id, lanes, before, p0, now);
    var _ := RunProjects(c, id, lanes, x0, stages);
    var x := RunStages(c, id, lanes, x0, stages);
    var steps := RunProjects(c, id, lanes, x, later);
    SucceededIsFinal(x.payin, steps);
  }
}
