/** The outbox relay, the inbox processor and the consumer loop as code that updates the
    outbox table, the logs and the inbox step by step. */
module Relay {
  import opened PaymentCore
  import opened Backoff
  import opened Delivery

  /** How one publication goes, and what the clock and the jitter say then. */
  datatype Publication = Publication(outcome: Outcome, now: int, clock: nat)

  function StepOf(relay: nat, a: Publication): Step { PublishStep(relay, a.outcome, a.now, a.clock) }

  /** The steps of one relay's run up to its commit: the claim and the publications. */
  function Session(relay: nat, picks: seq<nat>, now: int, attempts: seq<Publication>): seq<Step> {
    [ClaimStep(relay, picks, now)] + seq(|attempts|, i requires 0 <= i < |attempts| => StepOf(relay, attempts[i]))
  }

  lemma SessionGrows(relay: nat, picks: seq<nat>, now: int, attempts: seq<Publication>, a: Publication)
    ensures Session(relay, picks, now, attempts + [a]) == Session(relay, picks, now, attempts) + [StepOf(relay, a)]
  {}

  lemma {:induction false} RunAppends(c: Config, s: System, steps: seq<Step>, step: Step)
    requires c.Valid()
    ensures Run(c, s, steps + [step]) == Perform(c, Run(c, s, steps), step)
    decreases |steps|
  {
    if steps == [] {
      assert [step][1..] == [];
    } else {
      assert (steps + [step])[1..] == steps[1..] + [step];
      RunAppends(c, Perform(c, s, steps[0]), steps[1..], step);
    }
  }

  /** The first candidates in sequence order, as many as the limit allows. */
  ghost predicate FirstCandidates(s: System, picks: seq<nat>, now: int, limit: nat) {
    && Claimable(s, picks, now, limit)
    && (forall n: nat | Candidate(s.rows, n, now) && !Locked(s, n) :: n in picks || (|picks| == limit && forall i | 0 <= i < |picks| :: picks[i] < n))
  }

  class Bus {
    const config: Config

    var rows: seq<OutboxRow>
    var channels: map<Partition, Channel>
    var wire: seq<nat>
    var deadLetters: seq<nat>
    var batches: map<nat, Batch>
    var inbox: set<nat>
    var history: seq<Resolution>

    constructor (config: Config)
      requires config.Valid()
      ensures Valid() && Sys() == EMPTY && this.config == config
    {
      this.config := config;
      rows, channels, wire, deadLetters, batches, inbox, history := [], map[], [], [], map[], {}, [];
    }

    ghost predicate Valid() { config.Valid() }

    function Sys(): System
      reads this
    {
      System(rows, channels, wire, deadLetters, batches, inbox, history)
    }

    // ---- Relay ------------------------------------------------------------------

    /** The claim query: scans the table in sequence order and skips locked rows. */
    method SelectCandidates(now: int) returns (picks: seq<nat>)
      ensures FirstCandidates(Sys(), picks, now, config.batchSize)
    {
      picks := [];
      var n := 0;
      while n < |rows| && |picks| < config.batchSize
        invariant 0 <= n <= |rows| && Claimable(Sys(), picks, now, config.batchSize)
        invariant forall i | 0 <= i < |picks| :: picks[i] < n
        invariant forall m: nat | m < n && Candidate(rows, m, now) && !Locked(Sys(), m) :: m in picks
      {
        if Candidate(rows, n, now) && !Locked(Sys(), n) {
          picks := picks + [n];
        }
        n := n + 1;
      }
    }

    method ClaimBatch(relay: nat, now: int) returns (picks: seq<nat>)
      requires Valid() && relay !in batches
      modifies `batches
      ensures FirstCandidates(old(Sys()), picks, now, config.batchSize)
      ensures Sys() == Claim(config, old(Sys()), relay, picks, now)
    {
      picks := SelectCandidates(now);
      batches := batches[relay := Batch(picks, [])];
    }

    method AppendToLog(n: nat)
      requires n < |rows|
      modifies `channels, `wire
      ensures Sys() == Append(old(Sys()), n)
    {
      var at := rows[n].partition;
      var channel := if at in channels then channels[at] else Channel([], 0);
      channels := channels[at := channel.(log := channel.log + [n])];
      wire := wire + [n];
    }

    /** recordFailure: the row as it will be committed, and whether retries are exhausted. */
    method RecordFailure(row: OutboxRow, now: int, clock: nat) returns (updated: OutboxRow, exhausted: bool)
      requires Valid()
      ensures updated == AfterFailure(config, row, now, clock) && exhausted == Exhausted(config, row, now)
    {
      var attempts := row.attempts + 1;
      exhausted := attempts >= config.maxAttempts || now - row.since >= config.maxAge;
      if exhausted {
        updated := row.(attempts := attempts, failed := true);
      } else {
        var delay := RelayDelay(config.initial, config.maximum, attempts);
        updated := row.(attempts := attempts, due := now + Jitter(delay, clock));
      }
    }

    /** One iteration of the publish loop; false means the transaction was rolled back. */
    method PublishNext(relay: nat, outcome: Outcome, now: int, clock: nat) returns (ok: bool)
      requires Valid() && relay in batches && |batches[relay].updates| < |batches[relay].claimed|
      requires forall i | 0 <= i < |batches[relay].claimed| :: batches[relay].claimed[i] < |rows|
      modifies `channels, `wire, `deadLetters, `batches
      ensures Sys() == Publish(config, old(Sys()), relay, outcome, now, clock)
      ensures ok <==> relay in batches
      ensures ok ==> batches[relay].claimed == old(batches[relay].claimed) && |batches[relay].updates| == old(|batches[relay].updates|) + 1
    {
      var batch := batches[relay];
      var n := batch.claimed[|batch.updates|];
      var row := rows[n];
      match outcome {
        case Acknowledged =>
          AppendToLog(n);
          batches := batches[relay := batch.(updates := batch.updates + [row.(published := true)])];
        case Errored(delivered, deadLettered) =>
          if delivered {
            AppendToLog(n);
          }
          var updated, exhausted := RecordFailure(row, now, clock);
          if exhausted && !deadLettered {
            batches := batches - {relay};
            return false;
          }
          if exhausted {
            deadLetters := deadLetters + [n];
          }
          batches := batches[relay := batch.(updates := batch.updates + [updated])];
      }
      ok := true;
    }

    method Commit(relay: nat)
      requires Valid() && relay in batches && |batches[relay].updates| == |batches[relay].claimed|
      modifies `rows, `batches
      ensures Sys() == CommitBatch(old(Sys()), relay)
    {
      var batch := batches[relay];
      for j := 0 to |batch.updates|
        invariant rows == Write(old(rows), batch.claimed, batch.updates[..j])
        invariant batches == old(batches)
      {
        assert batch.updates[..j + 1][..j] == batch.updates[..j];
        if batch.claimed[j] < |rows| {
          rows := rows[batch.claimed[j] := batch.updates[j]];
        }
      }
      assert batch.updates[..|batch.updates|] == batch.updates;
      batches := batches - {relay};
    }

    /** RelayOnce, uninterrupted: it claims the first candidates, publishes and marks each
        one in turn, and commits, unless a dead letter could not be published. The clock is
        read anew for the claim and for every publication. */
    method RelayOnce(relay: nat, now: int, attempts: seq<Publication>) returns (picks: seq<nat>, committed: bool, ghost tried: nat)
      requires Valid() && relay !in batches && |attempts| >= config.batchSize
      modifies this
      ensures FirstCandidates(old(Sys()), picks, now, config.batchSize)
      ensures tried <= |picks| && (committed ==> tried == |picks|)
      ensures Sys() == Run(config, old(Sys()), Session(relay, picks, now, attempts[..tried]) + if committed then [CommitStep(relay)] else [])
      ensures relay !in batches
    {
      ghost var before := Sys();
      picks := ClaimBatch(relay, now);
      RunAppends(config, before, [], ClaimStep(relay, picks, now));
      tried := 0;
      for i := 0 to |picks|
        invariant relay in batches && batches[relay].claimed == picks && |batches[relay].updates| == i
        invariant rows == before.rows && tried == i
        invariant Sys() == Run(config, before, Session(relay, picks, now, attempts[..i]))
      {
        assert attempts[..i + 1] == attempts[..i] + [attempts[i]];
        SessionGrows(relay, picks, now, attempts[..i], attempts[i]);
        RunAppends(config, before, Session(relay, picks, now, attempts[..i]), StepOf(relay, attempts[i]));
        var ok := PublishNext(relay, attempts[i].outcome, attempts[i].now, attempts[i].clock);
        tried := i + 1;
        if !ok {
          assert Session(relay, picks, now, attempts[..tried]) + [] == Session(relay, picks, now, attempts[..tried]);
          return picks, false, tried;
        }
      }
      RunAppends(config, before, Session(relay, picks, now, attempts[..tried]), CommitStep(relay));
      Commit(relay);
      committed := true;
    }

    /** Only a dead-lettered row can be redriven. */
    method RedriveRow(n: nat, now: int) returns (ok: bool)
      modifies `rows
      ensures Sys() == Redrive(old(Sys()), n, now)
      ensures ok <==> n < |old(rows)| && old(rows)[n].failed && !old(rows)[n].published
    {
      if n < |rows| && !rows[n].published && rows[n].failed {
        rows := rows[n := rows[n].(attempts := 0, due := now, failed := false, since := now)];
        return true;
      }
      ok := false;
    }

    // ---- Consumer ---------------------------------------------------------------

    /** Processor.Process: the inbox row and the handler's effect commit together, a
        duplicate is skipped without running the handler, and an error undoes the insert. */
    method Process(n: nat, verdict: Verdict) returns (outcome: Verdict)
      modifies `inbox, `history
      ensures outcome == if n in old(inbox) then Success else verdict
      ensures inbox == if outcome == Success then old(inbox) + {n} else old(inbox)
      ensures history == if n !in old(inbox) && verdict == Success then old(history) + [Applied(n)] else old(history)
    {
      var saved := inbox;
      if n in inbox {
        return Success;
      }
      inbox := inbox + {n};
      if verdict != Success {
        inbox := saved;
        return verdict;
      }
      history := history + [Applied(n)];
      outcome := Success;
    }

    /** One attempt at the message the reader is on. */
    method Attempt(at: Partition, verdict: Verdict) returns (outcome: Verdict)
      requires at in channels && channels[at].committed < |channels[at].log|
      modifies `inbox, `history
      ensures Sys() == Consume(old(Sys()), at, verdict)
      ensures outcome != Transient ==> Resolved(Sys(), channels[at].log[channels[at].committed])
      ensures outcome == Transient ==> verdict == Transient
    {
      var n := channels[at].log[channels[at].committed];
      outcome := Process(n, verdict);
      if outcome == Permanent {
        history := history + [Rejected(n)];
      }
    }

    method CommitMessage(at: Partition)
      requires at in channels && channels[at].committed < |channels[at].log|
      requires Resolved(Sys(), channels[at].log[channels[at].committed])
      modifies `channels
      ensures Sys() == CommitOffset(old(Sys()), at)
      ensures at in channels && channels[at].committed == old(channels[at].committed) + 1
    {
      channels := channels[at := channels[at].(committed := channels[at].committed + 1)];
    }

    /** One message of Loop.Run: processed until it succeeds or is permanently rejected, and
        only then committed. `verdicts` are the handler's answers to successive attempts. */
    method ConsumeMessage(at: Partition, verdicts: seq<Verdict>) returns (done: bool, ghost steps: seq<Step>)
      requires Valid() && at in channels && channels[at].committed < |channels[at].log|
      modifies `inbox, `history, `channels
      ensures Sys() == Run(config, old(Sys()), steps)
      ensures forall i | 0 <= i < |steps| :: steps[i] == OffsetStep(at) || (steps[i].ConsumeStep? && steps[i].at == at)
      ensures at in channels && channels[at].committed == old(channels[at].committed) + if done then 1 else 0
      ensures !done ==> forall i | 0 <= i < |verdicts| :: verdicts[i] == Transient
    {
      ghost var before := Sys();
      steps := [];
      for i := 0 to |verdicts|
        invariant Sys() == Run(config, before, steps) && channels == old(channels)
        invariant forall k | 0 <= k < |steps| :: steps[k].ConsumeStep? && steps[k].at == at
        invariant forall k | 0 <= k < i :: verdicts[k] == Transient
      {
        RunAppends(config, before, steps, ConsumeStep(at, verdicts[i]));
        var outcome := Attempt(at, verdicts[i]);
        steps := steps + [ConsumeStep(at, verdicts[i])];
        if outcome != Transient {
          RunAppends(config, before, steps, OffsetStep(at));
          CommitMessage(at);
          steps := steps + [OffsetStep(at)];
          return true, steps;
        }
      }
      done := false;
    }
  }
}
