/** What every statement keeps about one delivery: its row, its Outbox events, its attempts, its
    audits and the history of its id.  `Good` is the invariant, `Evolves` the one-way relation
    between a record and any later version of it. */
module Records {
  import opened Model
  import opened Statements
  import opened Protocol

  // ----- The invariant

  /** The schema's lease CHECK, and a clock bound. */
  predicate RowOk(r: Record, now: Time) {
    && (r.row.status == Delivering <==> r.row.lease.Some?)
    && r.row.updatedAt <= now
  }

  /** No event is ahead of the row; a published event holds no lease; nothing is published or leased
      before it is available. */
  predicate EventsOk(r: Record, now: Time, outboxLease: Time) {
    forall g | g in r.events ::
      var e := r.events[g];
      && g <= r.row.generation
      && (e.publishedAt.Some? ==> e.lease.None? && e.availableAt <= e.publishedAt.value <= now)
      && (e.lease.Some? ==> e.availableAt <= now && e.lease.value.until <= now + outboxLease)
      && (e.observedAt.Some? ==> e.observedAt.value <= now)
  }

  /** The event of the current generation, while the row waits for it. */
  predicate CurrentOk(r: Record, now: Time) {
    && (r.row.generation == 0 ==> 0 in r.events)
    && (r.row.status == Pending && r.row.generation in r.events ==>
          var e := r.events[r.row.generation];
          && r.row.nextAttemptAt <= e.availableAt
          && (e.availableAt <= now || e.availableAt == r.row.nextAttemptAt))
  }

  /** At most one attempt per generation, none for a generation still open, and a success only as
      the last one. */
  predicate AttemptsOk(r: Record) {
    && (forall i, j :: 0 <= i < j < |r.attempts| ==> r.attempts[i].generation < r.attempts[j].generation)
    && (forall i :: 0 <= i < |r.attempts| ==>
          var a := r.attempts[i];
          && a.startedAt <= a.finishedAt
          && (a.generation < r.row.generation ||
              (a.generation == r.row.generation && Terminal(r.row.status)))
          && (a.class_ == SucceededAttempt ==>
                i == |r.attempts| - 1 && r.row.status == Succeeded && a.generation == r.row.generation))
    && (r.row.status == Succeeded ==>
          |r.attempts| > 0 && r.attempts[|r.attempts| - 1].class_ == SucceededAttempt)
  }

  /** UNIQUE (delivery_id, to_generation) and CHECK (to = from + 1) are never put to the test. */
  predicate AuditsOk(r: Record) {
    && (forall i, j :: 0 <= i < j < |r.audits| ==> r.audits[i].toGeneration < r.audits[j].toGeneration)
    && (forall i :: 0 <= i < |r.audits| ==>
          r.audits[i].toGeneration == r.audits[i].fromGeneration + 1 <= r.row.generation)
  }

  function RetryableCount(attempts: seq<Attempt>): nat {
    if attempts == [] then 0
    else
      var last := |attempts| - 1;
      RetryableCount(attempts[..last]) + if attempts[last].class_ == RetryableFailure then 1 else 0
  }

  predicate Conserved(r: Record) {
    r.row.generation == RetryableCount(r.attempts) + |r.audits|
  }

  function CycleStart(r: Record): Time {
    r.row.retryDeadline - DAY
  }

  /** n watchdog intervals. */
  function Intervals(n: nat, watchdog: Time): Time {
    if n == 0 then 0 else Intervals(n - 1, watchdog) + watchdog
  }

  lemma {:induction false} IntervalsIsProduct(n: nat, watchdog: Time)
    ensures Intervals(n, watchdog) == n * watchdog
  {
    if n == 0 {
    } else {
      IntervalsIsProduct(n - 1, watchdog);
      assert n * watchdog == (n - 1) * watchdog + watchdog;
    }
  }

  /** The earliest instant the clock can show after `log.resets` resets in this retry cycle. */
  function ResetFloor(r: Record, log: Log, watchdog: Time): Time {
    CycleStart(r) + Intervals(log.resets, watchdog)
  }

  predicate WatchdogOk(r: Record, log: Log, watchdog: Time, now: Time) {
    var floor := ResetFloor(r, log, watchdog);
    && (log.resets > 0 ==> floor <= log.resetClock && log.resetStatement < r.row.retryDeadline)
    && log.late <= log.resets
    && Intervals(log.resets - log.late, watchdog) < DAY
    && (log.late > 0 ==> r.row.retryDeadline <= now)
    && (Active(r.row.status) ==>
          || floor <= now
          || (&& log.resets == 0
              && r.row.status == Pending
              && CycleStart(r) <= r.row.nextAttemptAt
              && r.row.generation in r.events
              && CycleStart(r) <= r.events[r.row.generation].availableAt))
    && (r.row.status == Pending && r.row.generation in r.events ==>
          var e := r.events[r.row.generation];
          e.publishedAt.Some? ==> floor <= e.publishedAt.value)
  }

  /** A delivery waiting in generation g has been sent at most g times, any other at most g + 1. */
  predicate SendsOk(r: Record, log: Log) {
    log.sends <= r.row.generation + if r.row.status == Pending then 0 else 1
  }

  /** What does not depend on the attempts. */
  predicate Timed(r: Record, log: Log, cfg: Config, now: Time) {
    && RowOk(r, now)
    && EventsOk(r, now, cfg.outboxLease)
    && CurrentOk(r, now)
    && AuditsOk(r)
    && WatchdogOk(r, log, cfg.watchdog, now)
    && SendsOk(r, log)
  }

  predicate Accounted(r: Record) {
    AttemptsOk(r) && Conserved(r)
  }

  predicate Good(r: Record, log: Log, cfg: Config, now: Time) {
    Timed(r, log, cfg, now) && Accounted(r)
  }

  lemma GoodLater(r: Record, log: Log, cfg: Config, now: Time, later: Time)
    requires Good(r, log, cfg, now) && now <= later
    ensures Good(r, log, cfg, later)
  {
  }

  // ----- The one-way relation

  predicate Evolves(r: Record, r': Record) {
    && r'.row.request == r.row.request
    && r'.row.acceptedAt == r.row.acceptedAt
    && r.row.generation <= r'.row.generation
    && (r'.row.generation == r.row.generation ==>
          && (r'.row.status == Pending ==>
                && r.row.status == Pending
                && r'.row.nextAttemptAt == r.row.nextAttemptAt
                && r'.row.retryDeadline == r.row.retryDeadline)
          && (r'.row.status == Delivering ==>
                && r'.row.retryDeadline == r.row.retryDeadline
                && (|| r.row.status == Pending
                    || (&& r.row.status == Delivering
                        && r'.row.lease == r.row.lease
                        && r'.row.updatedAt == r.row.updatedAt)))
          && (Terminal(r.row.status) ==> r'.row.status == r.row.status))
  }

  // ----- Every statement keeps the invariant and moves the record one way

  lemma FreshGood(request: Request, acceptedAt: Time, cfg: Config, now: Time)
    ensures Good(FreshRecord(request, acceptedAt, acceptedAt + DAY, now), Log(0, 0, 0, now, now), cfg, now)
  {
  }

  lemma ClaimGood(r: Record, log: Log, cfg: Config, lease: Lease, now: Time)
    requires Good(r, log, cfg, now)
    requires r.row.status == Pending && r.row.nextAttemptAt <= now
    ensures var r' := r.(row := r.row.(status := Delivering, lease := Some(lease), updatedAt := now));
            && Good(r', log, cfg, now)
            && Good(r', log.(sends := log.sends + 1), cfg, now)
            && Evolves(r, r')
  {
  }

  lemma EventGood(r: Record, g: Generation, e: Event, log: Log, cfg: Config, now: Time)
    requires Good(r, log, cfg, now)
    requires g in r.events && e.availableAt == r.events[g].availableAt
    requires e.publishedAt.Some? ==>
               e.lease.None? && e.publishedAt.value <= now &&
               (e.publishedAt == r.events[g].publishedAt || (e.availableAt <= now && e.publishedAt.value == now))
    requires e.lease.Some? ==> e.availableAt <= now && e.lease.value.until <= now + cfg.outboxLease
    requires e.observedAt.Some? ==> e.observedAt.value <= now
    ensures var r' := r.(events := r.events[g := e]);
            Good(r', log, cfg, now) && Evolves(r, r')
  {
  }

  lemma LeaseGood(r: Record, id: Id, keys: set<Signal>, lease: Lease, log: Log, cfg: Config, now: Time)
    requires Good(r, log, cfg, now)
    requires lease.until == now + cfg.outboxLease
    requires forall g | g in r.events && Signal(id, g) in keys ::
               r.events[g].publishedAt.None? && r.events[g].availableAt <= now
    ensures var r' := LeaseRecord(r, id, keys, lease);
            Good(r', log, cfg, now) && Evolves(r, r')
  {
    var r' := LeaseRecord(r, id, keys, lease);
    assert forall g | g in r'.events :: r'.events[g].availableAt == r.events[g].availableAt;
  }

  /** The attempt that ends the open generation of `r` keeps the list of attempts in order and the
      books balanced. */
  lemma AttemptAppended(r: Record, r': Record, a: Attempt)
    requires Accounted(r) && r.row.status == Delivering
    requires r'.attempts == r.attempts + [a] && r'.audits == r.audits
    requires a.generation == r.row.generation && a.startedAt <= a.finishedAt
    requires if a.class_ == RetryableFailure
             then r'.row.generation == r.row.generation + 1 && r'.row.status == Pending
             else r'.row.generation == r.row.generation && Terminal(r'.row.status)
    requires a.class_ == SucceededAttempt <==> r'.row.status == Succeeded
    ensures Accounted(r')
  {
    assert r'.attempts[..|r.attempts|] == r.attempts;
  }

  /** `r'` is `r` with its open generation ended at `now`: for good, or with the next one opened and
      its event already available since `available`, if at all. */
  predicate Ends(r: Record, r': Record, available: Option<Time>, now: Time) {
    && r.row.status == Delivering
    && r'.row == r.row.(status := r'.row.status, generation := r'.row.generation,
                        nextAttemptAt := r'.row.nextAttemptAt, updatedAt := r'.row.updatedAt, lease := None)
    && r'.row.updatedAt <= now
    && r'.audits == r.audits
    && (if Terminal(r'.row.status) then r'.row.generation == r.row.generation
        else r'.row.status == Pending && r'.row.generation == r.row.generation + 1)
    && match available
       case None => r'.events == r.events
       case Some(at) =>
         && r'.row.status == Pending
         && r'.row.nextAttemptAt <= at <= now
         && r'.events == r.events[r'.row.generation := Event(at, None, None, None)]
  }

  lemma EndTimed(r: Record, r': Record, log: Log, cfg: Config, available: Option<Time>, now: Time)
    requires Timed(r, log, cfg, now) && Ends(r, r', available, now)
    ensures Timed(r', log, cfg, now) && Evolves(r, r')
  {
  }

  lemma CompleteGood(r: Record, log: Log, cfg: Config, result: AttemptResult, outcome: Outcome, now: Time)
    requires Good(r, log, cfg, now)
    requires r.row.status == Delivering && r.row.generation == result.signal.generation
    requires result.startedAt <= result.finishedAt
    ensures var r' := CompletedRecord(r, result, outcome, now);
            Good(r', log, cfg, now) && Evolves(r, r')
  {
    var r' := CompletedRecord(r, result, outcome, now);
    AttemptAppended(r, r', r'.attempts[|r.attempts|]);
    EndTimed(r, r', log, cfg, None, now);
  }

  lemma ScheduleGood(r: Record, picked: bool, log: Log, cfg: Config, statement: Time, clock: Time)
    requires Good(r, log, cfg, clock)
    requires picked ==> NeedsEvent(r, statement, clock)
    ensures var r' := ScheduleRecord(r, picked, statement, clock);
            Good(r', log, cfg, clock) && Evolves(r, r')
  {
  }

  lemma RecoverGood(r: Record, log: Log, cfg: Config, statement: Time, clock: Time, finished: Time)
    requires Good(r, log, cfg, finished)
    requires statement <= clock <= finished
    requires LeaseExpired(r, statement)
    ensures var r' := RecoverRecord(r, statement, clock, finished);
            Good(r', log, cfg, finished) && Evolves(r, r')
  {
    var r' := RecoverRecord(r, statement, clock, finished);
    assert r.row.generation + 1 !in r.events;
    AttemptAppended(r, r', r'.attempts[|r.attempts|]);
    EndTimed(r, r', log, cfg, if r.row.retryDeadline <= statement then None else Some(finished), finished);
  }

  lemma ReconcileGood(r: Record, log: Log, cfg: Config, statement: Time, clock: Time)
    requires Good(r, log, cfg, clock)
    requires cfg.watchdog > 0 && statement <= clock
    requires Stalled(r, cfg.watchdog, statement, clock)
    ensures var r' := ReconcileRecord(r, clock);
            Good(r', CountReset(log, r.row.retryDeadline, statement, clock), cfg, clock) && Evolves(r, r')
  {
  }

  lemma ReplayGood(r: Record, log: Log, cfg: Config, operator: string, reason: string, replayedAt: Time, now: Time)
    requires Good(r, log, cfg, now)
    requires r.row.status == FailedPermanent && replayedAt <= now
    ensures var r' := ReplayRecord(r, operator, reason, replayedAt);
            Good(r', log.(resets := 0, late := 0), cfg, now) && Evolves(r, r')
  {
  }
}
