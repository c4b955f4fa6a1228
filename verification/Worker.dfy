/** `Worker.Process` and `processMessage` from the side of the process that runs them: what is done
    with the limiter, with Send and with the broker on every path.  The answers of the store, of
    Send and of the broker are inputs; their effect on the shared state is the protocol's. */
module WorkerProcess {
  import opened Model
  import opened Statements
  import opened Text
  import opened RetryPolicy
  import opened LimiterLaws
  import opened Limiter

  datatype Destination = Destination(
    id: string,
    maxConcurrency: int,
    ratePerSecond: real,
    successStatuses: seq<int>,
    retryStatuses: seq<int>)

  datatype Answer<+T> = Found(value: T) | NotClaimable | StoreFails

  datatype Claimed = Claimed(signal: Signal, lease: Lease, retryDeadline: Time, destination: Destination)

  datatype Sent = Sent(status: int, retryAfter: Bytes, date: Option<Time>, error: Option<SendError>)

  datatype CommitAnswer = Committed | Lost | CommitFails

  /** What the surroundings answer to one call of `Process`. */
  datatype Script = Script(
    eligible: Answer<Destination>,
    observeFails: bool,
    now: Instant,
    claim: Answer<Claimed>,
    startedAt: Time,
    sent: Sent,
    finishedAt: Time,
    entropy: nat,
    commit: CommitAnswer)

  /** (true, nil), (false, nil) and (false, err). */
  datatype Verdict = Acknowledge | NoCapacity | Error

  /** The result call that `Process` makes. */
  datatype Completion = Completion(result: AttemptResult, outcome: Outcome)

  predicate CapacityFor(known: Option<Limit>, d: Destination, now: Instant) {
    Grants(Tighten(known, d.maxConcurrency, d.ratePerSecond), now)
  }

  /** The claim is reached and answers with a delivery. */
  predicate Sends(script: Script, capacity: bool) {
    script.eligible.Found? && !script.observeFails && capacity && script.claim.Found?
  }

  function ExpectedVerdict(script: Script, capacity: bool): Verdict {
    if script.eligible.NotClaimable? then Acknowledge
    else if script.eligible.StoreFails? || script.observeFails then Error
    else if !capacity then NoCapacity
    else if script.claim.NotClaimable? then Acknowledge
    else if script.claim.StoreFails? then Error
    else if script.commit == CommitFails then Error
    else Acknowledge
  }

  /** The result that fits the answer of Send. */
  predicate FittingOutcome(claimed: Claimed, sent: Sent, finishedAt: Time, entropy: nat, outcome: Outcome) {
    var d := claimed.destination;
    var next := NextAttemptAt(finishedAt, claimed.signal.generation, sent.retryAfter, sent.date, entropy);
    var succeeds := sent.error.None? && SuccessStatus(sent.status, d.successStatuses);
    var retries :=
      || (sent.error.Some? && !sent.error.value.permanent)
      || (sent.error.None? && !succeeds && RetryStatus(sent.status, d.retryStatuses));
    && (outcome == Success <==> succeeds)
    && (outcome.Retry? <==> retries && next < claimed.retryDeadline)
    && (outcome.Retry? ==> outcome.nextAttemptAt == next)
  }

  /** A success has no category; a failure is told apart by its error or status, unless it would have
      been tried again but for the deadline. */
  predicate FittingCategory(claimed: Claimed, sent: Sent, outcome: Outcome, category: string) {
    var retries := if sent.error.Some? then !sent.error.value.permanent
                   else RetryStatus(sent.status, claimed.destination.retryStatuses);
    category ==
      if outcome.Success? then ""
      else if outcome.Permanent? && retries then "retry_deadline_exhausted"
      else if sent.error.Some? then (if sent.error.value.timedOut then "timeout" else "network_or_request_error")
      else "http_" + Chars(FormatInt(sent.status))
  }

  /** The result call names the claim it comes from, and the outcome and category that fit. */
  predicate Answers(completion: Completion, script: Script)
    requires script.claim.Found?
  {
    var c := script.claim.value;
    && completion.result.signal == c.signal
    && completion.result.owner == c.lease.owner
    && completion.result.token == c.lease.token
    && completion.result.startedAt == script.startedAt
    && completion.result.finishedAt == script.finishedAt
    && FittingOutcome(c, script.sent, script.finishedAt, script.entropy, completion.outcome)
    && FittingCategory(c, script.sent, completion.outcome, completion.result.category)
  }

  function ErrorCategory(status: int, error: Option<SendError>): string {
    match error
    case Some(e) => if e.timedOut then "timeout" else "network_or_request_error"
    case None => "http_" + Chars(FormatInt(status))
  }

  class DeliveryWorker {
    const limiter: DestinationLimiter

    constructor (limiter: DestinationLimiter)
      ensures this.limiter == limiter
    {
      this.limiter := limiter;
    }

    /** Slots in use for a destination. */
    ghost function InUse(destination: string): int
      reads limiter, if destination in limiter.states then {limiter.states[destination]} else {}
    {
      match limiter.Known(destination)
      case None => 0
      case Some(l) => l.active
    }

    /** From the answer of Send to the result call. */
    method Attempted(script: Script) returns (completion: Completion)
      requires script.claim.Found?
      ensures Answers(completion, script)
    {
      var claimed, sent := script.claim.value, script.sent;
      var d := claimed.destination;
      var class_ := Classify(sent.status, sent.error, d.successStatuses, d.retryStatuses);
      var category := ErrorCategory(sent.status, sent.error);
      var outcome := Success;
      if class_ == Delivered {
        category := "";
      } else if class_ == Rejected {
        outcome := Permanent;
      } else {
        var next := NextAttemptAt(script.finishedAt, claimed.signal.generation, sent.retryAfter, sent.date, script.entropy);
        if next >= claimed.retryDeadline {
          category := "retry_deadline_exhausted";
          outcome := Permanent;
        } else {
          outcome := Retry(next);
        }
      }
      completion := Completion(
        AttemptResult(claimed.signal, claimed.lease.owner, claimed.lease.token, category,
                      script.startedAt, script.finishedAt),
        outcome);
    }

    /** From the claim to the result, with a permit in hand that is released on the way out. */
    method HoldPermit(permit: Permit, script: Script)
      returns (verdict: Verdict, inUse: Option<int>, completion: Option<Completion>)
      requires !permit.released
      modifies permit, permit.state
      ensures permit.released
      ensures permit.state.View() ==
                Released(old(permit.state.View()), permit.sequence, permit.previousNext, permit.reservedNext, script.claim.Found?)
      ensures verdict == (if script.claim.NotClaimable? then Acknowledge
                          else if script.claim.StoreFails? || script.commit == CommitFails then Error
                          else Acknowledge)
      ensures inUse == if script.claim.Found? then Some(old(permit.state.active)) else None
      ensures completion.Some? <==> script.claim.Found?
      ensures completion.Some? ==> Answers(completion.value, script)
    {
      inUse, completion := None, None;
      if script.claim.NotClaimable? {
        permit.Release(false);
        return Acknowledge, inUse, completion;
      }
      if script.claim.StoreFails? {
        permit.Release(false);
        return Error, inUse, completion;
      }
      inUse := Some(permit.state.active);
      var attempt := Attempted(script);
      completion := Some(attempt);
      permit.Release(true);
      return if script.commit == CommitFails then Error else Acknowledge, inUse, completion;
    }

    /** Every path gives its permit back exactly once: the slots in use are the same afterwards for
        every destination.  Send runs on exactly one path, inside a slot of the destination that is
        within its concurrency limit (`inUse` is the count while Send runs), and is followed by one
        result call that carries the lease of the claim. */
    method Process(script: Script) returns (verdict: Verdict, inUse: Option<int>, completion: Option<Completion>)
      requires limiter.Valid()
      modifies limiter, limiter.states.Values
      ensures limiter.Valid()
      ensures forall d :: InUse(d) == old(InUse(d))
      ensures forall d | d in old(limiter.states) && (script.eligible.Found? ==> d != script.eligible.value.id) ::
                d in limiter.states && limiter.states[d].View() == old(limiter.states[d].View())
      ensures var capacity := script.eligible.Found? &&
                              CapacityFor(old(limiter.Known(script.eligible.value.id)), script.eligible.value, script.now);
              && verdict == ExpectedVerdict(script, capacity)
              && (inUse.Some? <==> Sends(script, capacity))
              && (completion.Some? <==> Sends(script, capacity))
              && (inUse.Some? ==>
                    && inUse.value == old(InUse(script.eligible.value.id)) + 1
                    && inUse.value <= Normalised(script.eligible.value.maxConcurrency))
              && (completion.Some? ==> Answers(completion.value, script))
    {
      inUse, completion := None, None;
      if script.eligible.NotClaimable? {
        return Acknowledge, inUse, completion;
      }
      if script.eligible.StoreFails? {
        return Error, inUse, completion;
      }
      var destination := script.eligible.value;
      if script.observeFails {
        return Error, inUse, completion;
      }
      var permit := limiter.TryAcquire(destination.id, destination.maxConcurrency, destination.ratePerSecond, script.now);
      if permit == null {
        return NoCapacity, inUse, completion;
      }
      verdict, inUse, completion := HoldPermit(permit, script);
    }
  }

  // ----- processMessage

  datatype Effect = Deferred | Acked | Requeued | DeadLettered

  /** The broker calls made for one message, in order, with the verdict of `Process` where it was
      asked; `settles` is whether the ACK or NACK call succeeds.  Every message is settled by exactly
      one call; it is dead-lettered only when it cannot be read; an ACK means that Process said so or
      that a replacement was confirmed just before. */
  method ProcessMessage(decodes: bool, valid: bool, verdict: Verdict, deferConfirmed: bool, settles: bool)
    returns (effects: seq<Effect>, failed: bool)
    ensures |multiset(effects) - multiset{Deferred}| == 1
    ensures DeadLettered in effects <==> !(decodes && valid)
    ensures Acked in effects <==>
              decodes && valid && (verdict == Acknowledge || (verdict == NoCapacity && deferConfirmed))
    ensures Deferred in effects <==> decodes && valid && verdict == NoCapacity && deferConfirmed
    ensures Deferred in effects ==> effects == [Deferred, Acked]
    ensures failed <==> Requeued in effects || !settles
  {
    if !decodes {
      return [DeadLettered], !settles;
    }
    if !valid {
      return [DeadLettered], !settles;
    }
    if verdict == Error {
      return [Requeued], true;
    }
    if verdict == NoCapacity {
      if !deferConfirmed {
        return [Requeued], true;
      }
      return [Deferred, Acked], !settles;
    }
    return [Acked], !settles;
  }
}
