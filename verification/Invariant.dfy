/** The invariant of the whole protocol, and the one-way relation between a state and a later one. */
module Invariant {
  import opened Model
  import opened Statements
  import opened Protocol
  import opened Records

  // ----- What can be said of one signal

  /** The signal names a delivery that was accepted, is not ahead of it, and is not early. */
  predicate Known(s: System, signal: Signal) {
    && signal.id in s.logs
    && (signal.id in s.db ==>
          var row := s.db[signal.id].row;
          && signal.generation <= row.generation
          && (signal.generation == row.generation && row.status == Pending ==> row.nextAttemptAt <= s.now))
  }

  /** The signal's generation has been claimed or passed, or the delivery is gone. */
  predicate Taken(s: System, signal: Signal) {
    && signal.id in s.logs
    && (signal.id in s.db ==>
          var row := s.db[signal.id].row;
          || signal.generation < row.generation
          || (signal.generation == row.generation && row.status != Pending))
  }

  /** The signal can no longer lead to a claim: taken, or past the retry deadline. */
  predicate Dead(s: System, signal: Signal) {
    && signal.id in s.logs
    && (signal.id in s.db ==>
          var row := s.db[signal.id].row;
          || signal.generation < row.generation
          || (signal.generation == row.generation && (row.status != Pending || row.retryDeadline <= s.now)))
  }

  /** A committed claim: while its generation is still being delivered the row carries exactly its
      lease, deadline and instant, and once it is over the lease has run out or the send has ended. */
  predicate ClaimOk(s: System, signal: Signal, c: Claim) {
    && Taken(s, signal)
    && c.at <= s.now && c.at < c.lease.until
    && (signal.id in s.db ==>
          var row := s.db[signal.id].row;
          && (row.generation == signal.generation && row.status == Delivering ==>
                row.lease == Some(c.lease) && row.retryDeadline == c.deadline && row.updatedAt == c.at)
          && (signal.generation < row.generation || Terminal(row.status) ==>
                c.lease.until <= s.now || signal in s.ended))
  }

  predicate TaskOk(s: System, t: nat, task: Task) {
    && Known(s, task.signal)
    && match task.phase
       case Sending =>
         && task.signal in s.claims
         && s.claims[task.signal].holder == t
         && task.signal !in s.ended
       case Completing(result, outcome) =>
         && task.signal in s.claims
         && task.signal in s.ended
         && result.signal == task.signal
         && result.owner == s.claims[task.signal].lease.owner
         && result.token == s.claims[task.signal].lease.token
         && (outcome.Retry? ==> outcome.nextAttemptAt < s.claims[task.signal].deadline)
       case Finished => Dead(s, task.signal)
       case _ => true
  }

  /** The send that claim `a` started is over, by return or by lease, when `b` is claimed. */
  predicate Before(s: System, a: Signal, b: Signal)
    requires a in s.claims && b in s.claims
  {
    s.claims[a].lease.until <= s.claims[b].at || (a in s.ended && s.ended[a] <= s.claims[b].at)
  }

  // ----- The invariant, one place of the state at a time

  predicate RowAt(s: System, id: Id) {
    id in s.db ==>
      && id in s.logs
      && Good(s.db[id], s.logs[id], s.cfg, s.now)
      && (s.db[id].row.status == Delivering ==> Signal(id, s.db[id].row.generation) in s.claims)
      && (s.db[id].row.status == Succeeded ==> Signal(id, s.db[id].row.generation) in s.ended)
  }

  predicate QueueAt(s: System, signal: Signal) {
    signal in s.ready || signal in s.deferred ==> Known(s, signal)
  }

  predicate TaskAt(s: System, t: nat) {
    t in s.tasks ==> TaskOk(s, t, s.tasks[t])
  }

  predicate CycleAt(s: System, c: nat, key: Signal) {
    c in s.cycles && key in s.cycles[c].keys ==> Known(s, key)
  }

  predicate ClaimAt(s: System, signal: Signal) {
    && (signal in s.claims ==> ClaimOk(s, signal, s.claims[signal]))
    && (signal in s.ended ==> signal in s.claims && s.claims[signal].at <= s.ended[signal] <= s.now)
  }

  predicate ApartAt(s: System, a: Signal, b: Signal) {
    a in s.claims && b in s.claims && a.id == b.id && a.generation < b.generation ==> Before(s, a, b)
  }

  ghost predicate Inv(s: System) {
    && ValidConfig(s.cfg)
    && (forall id {:trigger RowAt(s, id)} :: RowAt(s, id))
    && (forall signal {:trigger QueueAt(s, signal)} :: QueueAt(s, signal))
    && (forall t {:trigger TaskAt(s, t)} :: TaskAt(s, t))
    && (forall c, key {:trigger CycleAt(s, c, key)} :: CycleAt(s, c, key))
    && (forall signal {:trigger ClaimAt(s, signal)} :: ClaimAt(s, signal))
    && (forall a, b {:trigger ApartAt(s, a, b)} :: ApartAt(s, a, b))
  }

  // ----- Steps only go forward

  predicate RecordAdvances(r: Record, r': Record, id: Id, ended: map<Signal, Time>, now: Time) {
    && Evolves(r, r')
    && (&& r.row.status == Delivering
        && r.row.lease.Some?
        && (r.row.generation < r'.row.generation || Terminal(r'.row.status))
        ==> r.row.lease.value.until <= now || Signal(id, r.row.generation) in ended)
  }

  predicate IdAdvances(s: System, s': System, id: Id) {
    && (id in s.logs ==> id in s'.logs)
    && (id in s'.db ==> if id in s.db then RecordAdvances(s.db[id], s'.db[id], id, s'.ended, s'.now)
                        else id !in s.logs)
  }

  predicate HistoryAdvances(s: System, s': System, signal: Signal) {
    && (signal in s.claims ==> signal in s'.claims && s'.claims[signal] == s.claims[signal])
    && (signal in s.ended ==> signal in s'.ended && s'.ended[signal] == s.ended[signal])
  }

  ghost predicate Advances(s: System, s': System) {
    && s.cfg == s'.cfg
    && s.now <= s'.now
    && (forall id {:trigger IdAdvances(s, s', id)} :: IdAdvances(s, s', id))
    && (forall signal {:trigger HistoryAdvances(s, s', signal)} :: HistoryAdvances(s, s', signal))
  }

  lemma SignalStays(s: System, s': System, signal: Signal)
    requires Advances(s, s')
    ensures Known(s, signal) ==> Known(s', signal)
    ensures Taken(s, signal) ==> Taken(s', signal)
    ensures Dead(s, signal) ==> Dead(s', signal)
  {
    assert IdAdvances(s, s', signal.id);
  }

  lemma ClaimStays(s: System, s': System, signal: Signal)
    requires Inv(s) && Advances(s, s') && signal in s.claims
    ensures signal in s'.claims && ClaimOk(s', signal, s'.claims[signal])
  {
    SignalStays(s, s', signal);
    assert ClaimAt(s, signal) && HistoryAdvances(s, s', signal);
    assert IdAdvances(s, s', signal.id);
    assert RowAt(s, signal.id);
  }
}
