/** What the protocol promises, over every run and every reachable state. */
module Guarantees {
  import opened Model
  import opened Statements
  import opened Protocol
  import opened Records
  import opened Invariant
  import opened Preservation
  import opened Coverage

  // ----- ACK means dead for ever

  lemma {:induction false} DeadForever(s: System, steps: seq<Step>, signal: Signal)
    requires Inv(s) && ValidRun(s, steps) && Dead(s, signal)
    ensures Dead(Run(s, steps), signal) && s.now <= Run(s, steps).now
    decreases |steps|
  {
    if steps == [] {
    } else {
      StepKeeps(s, steps[0]);
      SignalStays(s, Next(s, steps[0]), signal);
      DeadForever(Next(s, steps[0]), steps[1..], signal);
    }
  }

  /** A message acknowledged without a replacement never becomes claimable again, in any state of
      any continuation and at any later clock reading. */
  lemma AckIsFinal(s: System, t: nat, steps: seq<Step>, at: Time)
    requires Reachable(s) && Enabled(s, Worker(t, Ack)) && s.tasks[t].phase.Finished?
    requires ValidRun(Next(s, Worker(t, Ack)), steps)
    requires Run(Next(s, Worker(t, Ack)), steps).now <= at
    ensures !Claimable(Run(Next(s, Worker(t, Ack)), steps).db, s.tasks[t].signal, at)
  {
    ReachableInv(s);
    var s' := Next(s, Worker(t, Ack));
    assert TaskAt(s, t);
    StepKeeps(s, Worker(t, Ack));
    SignalStays(s, s', s.tasks[t].signal);
    DeadForever(s', steps, s.tasks[t].signal);
  }

  // ----- One claim, one attempt, one send per generation

  /** `step` commits a claim of `signal`. */
  predicate CommitsClaim(s: System, step: Step, signal: Signal) {
    && step.Worker?
    && step.worker.ClaimRow?
    && Enabled(s, step)
    && s.tasks[step.task].signal == signal
    && !step.worker.fate.FailsBefore?
    && Claimable(s.db, signal, step.worker.at)
  }

  /** No two steps of a run claim the same generation of the same delivery, however often its
      signal is duplicated. */
  lemma ClaimedOnce(s: System, first: Step, signal: Signal, steps: seq<Step>, second: Step)
    requires Reachable(s) && CommitsClaim(s, first, signal)
    requires ValidRun(Next(s, first), steps)
    ensures !CommitsClaim(Run(Next(s, first), steps), second, signal)
  {
    ReachableInv(s);
    var s' := Next(s, first);
    StepKeeps(s, first);
    assert ClaimAt(s', signal);
    DeadForever(s', steps, signal);
  }

  /** At most one attempt row per generation, although no unique index says so, and none beyond the
      current one. */
  lemma OneAttemptPerGeneration(s: System, id: Id, i: nat, j: nat)
    requires Reachable(s) && id in s.db && i < j < |s.db[id].attempts|
    ensures s.db[id].attempts[i].generation < s.db[id].attempts[j].generation <= s.db[id].row.generation
  {
    ReachableInv(s);
    assert RowAt(s, id);
  }

  /** A delivery has been sent at most once per generation reached. */
  lemma SendsBounded(s: System, id: Id)
    requires Reachable(s) && id in s.db
    ensures id in s.logs && s.logs[id].sends <= s.db[id].row.generation + 1
  {
    ReachableInv(s);
    assert RowAt(s, id);
  }

  /** A delivery is marked succeeded only after the claim of that very generation and the return of
      its send. */
  lemma SucceededWasSent(s: System, id: Id)
    requires Reachable(s) && id in s.db && s.db[id].row.status == Succeeded
    ensures var signal := Signal(id, s.db[id].row.generation);
            signal in s.claims && signal in s.ended && s.claims[signal].at <= s.ended[signal] <= s.now
  {
    ReachableInv(s);
    assert RowAt(s, id) && ClaimAt(s, Signal(id, s.db[id].row.generation));
  }

  /** The attempt row that lease recovery writes tells of the claim that was lost: its generation, its
      token and the instant it was made. */
  lemma RecoveryRecordsClaim(s: System, picked: set<Id>, statement: Time, clock: Time, finished: Time, id: Id)
    requires Reachable(s) && Enabled(s, Maintenance(RecoverLeases(picked, statement, clock, finished))) && id in picked
    ensures id in s.db && Signal(id, s.db[id].row.generation) in s.claims
    ensures var claim := s.claims[Signal(id, s.db[id].row.generation)];
            var r := Next(s, Maintenance(RecoverLeases(picked, statement, clock, finished))).db[id];
            && |r.attempts| == |s.db[id].attempts| + 1
            && var a := r.attempts[|r.attempts| - 1];
               && a.generation == s.db[id].row.generation
               && a.token == claim.lease.token
               && a.startedAt == claim.at < claim.lease.until <= a.finishedAt
  {
    ReachableInv(s);
    assert id in LeaseExpiredIds(s.db, statement);
    assert RowAt(s, id) && ClaimAt(s, Signal(id, s.db[id].row.generation));
  }

  // ----- Fencing

  /** The row is still in the generation and state that a claim of `signal` put it in. */
  predicate StillDelivering(s: System, signal: Signal) {
    && signal.id in s.db
    && s.db[signal.id].row.generation == signal.generation
    && s.db[signal.id].row.status == Delivering
  }

  /** For the result of a claim, matching id, generation and state already means matching the very
      lease of that claim; and the fenced update fails exactly when that lease is gone or expired,
      never because of its retry-deadline clause. */
  lemma FencingIsExact(s: System, t: nat, at: Time)
    requires Reachable(s) && t in s.tasks && s.tasks[t].phase.Completing?
    ensures var signal := s.tasks[t].signal;
            && signal in s.claims
            && (StillDelivering(s, signal) ==> s.db[signal.id].row.lease == Some(s.claims[signal].lease))
            && (Completes(s.db, s.tasks[t].phase.result, s.tasks[t].phase.outcome, at) <==>
                  StillDelivering(s, signal) && at < s.claims[signal].lease.until)
  {
    ReachableInv(s);
    assert TaskAt(s, t) && ClaimAt(s, s.tasks[t].signal);
  }

  // ----- Conservation

  function SucceededCount(attempts: seq<Attempt>): nat {
    if attempts == [] then 0
    else
      var last := |attempts| - 1;
      SucceededCount(attempts[..last]) + if attempts[last].class_ == SucceededAttempt then 1 else 0
  }

  lemma {:induction false} NoSuccessBefore(attempts: seq<Attempt>, n: nat)
    requires n <= |attempts|
    requires forall i :: 0 <= i < n ==> attempts[i].class_ != SucceededAttempt
    ensures SucceededCount(attempts[..n]) == 0
  {
    if n == 0 {
    } else {
      NoSuccessBefore(attempts, n - 1);
      assert attempts[..n][..n - 1] == attempts[..n - 1];
    }
  }

  /** A generation is spent by a retryable attempt or a replay and by nothing else; a delivery has
      succeeded exactly when it has one succeeded attempt, and that one is of its current
      generation. */
  lemma Conservation(s: System, id: Id)
    requires Reachable(s) && id in s.db
    ensures var r := s.db[id];
            && r.row.generation == RetryableCount(r.attempts) + |r.audits|
            && SucceededCount(r.attempts) == (if r.row.status == Succeeded then 1 else 0)
            && (forall i :: 0 <= i < |r.attempts| && r.attempts[i].class_ == SucceededAttempt ==>
                  r.attempts[i].generation == r.row.generation)
  {
    ReachableInv(s);
    assert RowAt(s, id);
    var attempts := s.db[id].attempts;
    if attempts != [] {
      NoSuccessBefore(attempts, |attempts| - 1);
    }
  }

  // ----- No early signal

  /** The event of a waiting delivery is never available before the delivery is due. */
  lemma EventNotEarly(s: System, id: Id)
    requires Reachable(s) && id in s.db && s.db[id].row.status == Pending
    requires s.db[id].row.generation in s.db[id].events
    ensures s.db[id].row.nextAttemptAt <= s.db[id].events[s.db[id].row.generation].availableAt
  {
    ReachableInv(s);
    assert RowAt(s, id);
  }

  /** So no message for a waiting generation is anywhere in the broker before it is due. */
  lemma SignalNotEarly(s: System, signal: Signal)
    requires Reachable(s) && Present(s, signal) && signal.id in s.db
    ensures signal.generation <= s.db[signal.id].row.generation
    ensures signal.generation == s.db[signal.id].row.generation && s.db[signal.id].row.status == Pending ==>
              s.db[signal.id].row.nextAttemptAt <= s.now
  {
    ReachableInv(s);
    PresentKnown(s, signal);
  }

  // ----- The Outbox frontier

  /** No event is ahead of its delivery, published events hold no lease, the inserts of recovery and
      replay never meet an existing key, and a waiting delivery without an event is one that the
      retry scheduler will pick up: its `generation > 0` filter strands nothing. */
  lemma OutboxFrontier(s: System, id: Id, statement: Time, clock: Time)
    requires Reachable(s) && id in s.db
    ensures var r := s.db[id];
            && (forall g | g in r.events ::
                  g <= r.row.generation && (r.events[g].publishedAt.Some? ==> r.events[g].lease.None?))
            && r.row.generation + 1 !in r.events
            && (forall i :: 0 <= i < |r.audits| ==> r.audits[i].toGeneration != r.row.generation + 1)
            && (r.row.status == Pending && r.row.nextAttemptAt <= clock && statement < r.row.retryDeadline ==>
                  r.row.generation in r.events || NeedsEvent(r, statement, clock))
  {
    ReachableInv(s);
    assert RowAt(s, id);
  }

  // ----- The watchdog

  /** Of the watchdog resets of one retry cycle, over all its generations, each takes a whole watchdog
      interval out of its 24 hours, except for the late ones.  Those end past the deadline although
      they started before it, because the statement compares the deadline with `statement_timestamp()`
      and the interval with `clock_timestamp()`. */
  lemma WatchdogBounded(s: System, id: Id)
    requires Reachable(s) && id in s.db
    ensures id in s.logs && s.logs[id].late <= s.logs[id].resets
    ensures (s.logs[id].resets - s.logs[id].late) * s.cfg.watchdog < DAY
    ensures s.logs[id].resets > 0 ==>
              s.logs[id].resets * s.cfg.watchdog < DAY + (s.logs[id].resetClock - s.logs[id].resetStatement)
    ensures s.logs[id].resets > 0 && s.logs[id].resetClock < s.db[id].row.retryDeadline ==>
              s.logs[id].resets * s.cfg.watchdog < DAY
  {
    ReachableInv(s);
    assert RowAt(s, id);
    IntervalsIsProduct(s.logs[id].resets, s.cfg.watchdog);
    IntervalsIsProduct(s.logs[id].resets - s.logs[id].late, s.cfg.watchdog);
  }

  /** Without broker loss the watchdog is never needed: a waiting, unexpired delivery whose current
      event is marked published still has a message in the queue, in a handler or deferred. */
  lemma NoLossNoWatchdog(s: System, id: Id)
    requires Reachable(s) && !s.lost && id in s.db
    requires s.db[id].row.status == Pending && s.now < s.db[id].row.retryDeadline
    requires CurrentPublished(s.db[id])
    ensures Present(s, Signal(id, s.db[id].row.generation))
  {
    ReachableCoverage(s);
    assert RowCovered(s, id);
    var signal := Signal(id, s.db[id].row.generation);
    if signal !in s.ready && signal !in s.deferred {
      var t :| Holds(s, t, signal);
    }
  }

  // ----- Sends of one delivery do not overlap

  /** When the send of a claim ended, or now if it has not. */
  function SendEnd(s: System, signal: Signal): Time {
    if signal in s.ended then s.ended[signal] else s.now
  }

  /** If the earlier send kept within its lease, it was over before the later one was even claimed. */
  lemma SendsDisjoint(s: System, a: Signal, b: Signal)
    requires Reachable(s) && a in s.claims && b in s.claims
    requires a.id == b.id && a.generation < b.generation
    requires SendEnd(s, a) <= s.claims[a].lease.until
    ensures SendEnd(s, a) <= s.claims[b].at <= SendEnd(s, b)
  {
    ReachableInv(s);
    assert ApartAt(s, a, b) && ClaimAt(s, b);
  }
}
