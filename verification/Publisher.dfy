/** One cycle of the Outbox Publisher: claim a batch, publish and mark event by event, and on the
    first failure release the rest.  How each broker and store call ends is an input. */
module OutboxPublisher {
  import opened Model
  import opened Statements
  import opened Protocol
  import opened Store

  /** How the calls for one event of the batch end. */
  datatype Turn = Turn(
    confirmed: bool,      // Publish returned nil
    enqueued: bool,       // the message reached the queue, which an error does not rule out
    markAt: Time,
    mark: Fate,
    release: Fate)

  /** Publish and mark both succeed for this event under a lease until `until`. */
  predicate Succeeds(turn: Turn, until: Time) {
    turn.confirmed && turn.mark.Returns? && turn.markAt < until
  }

  /** Every event of the batch could be claimed. */
  predicate FreeToClaim(db: Database, events: seq<Signal>, locked: set<Signal>, now: Time) {
    KeySet(events) <= Candidates(db, now) - locked
  }

  /** A confirmed message is in the queue. */
  predicate Truthful(turns: seq<Turn>) {
    forall i | 0 <= i < |turns| :: turns[i].confirmed ==> turns[i].enqueued
  }

  class SignalBroker {
    var ready: multiset<Signal>

    constructor ()
      ensures ready == multiset{}
    {
      ready := multiset{};
    }

    method Publish(signal: Signal, turn: Turn) returns (confirmed: bool)
      modifies this
      ensures confirmed == turn.confirmed
      ensures ready == old(ready) + if turn.enqueued then multiset{signal} else multiset{}
    {
      if turn.enqueued {
        ready := ready + multiset{signal};
      }
      return turn.confirmed;
    }
  }

  /** What one event is, if there is one under the key. */
  function Look(db: Database, key: Signal): Option<Event> {
    if HasEvent(db, key) then Some(EventOf(db, key)) else None
  }

  // ----- The database after part of a cycle

  /** Marking events[..n], all of which go through. */
  function Marked(db: Database, owner: string, token: Token, events: seq<Signal>, turns: seq<Turn>, n: nat): Database
    requires n <= |events| <= |turns|
  {
    if n == 0 then db
    else MarkPublished(Marked(db, owner, token, events, turns, n - 1), events[n - 1], owner, token, turns[n - 1].markAt)
  }

  /** Releasing events[from..n], as far as the calls reach the database. */
  function Unleased(db: Database, owner: string, token: Token, events: seq<Signal>, turns: seq<Turn>, from: nat, n: nat)
    : Database
    requires from <= n <= |events| <= |turns|
  {
    if n == from then db
    else
      var before := Unleased(db, owner, token, events, turns, from, n - 1);
      if turns[n - 1].release.FailsBefore? then before
      else Statements.ReleaseOutbox(before, events[n - 1], owner, token)
  }

  function WithoutLease(e: Event): Event {
    e.(lease := None)
  }

  predicate HeldBy(e: Event, owner: string, token: Token) {
    e.publishedAt.None? && e.lease.Some? && e.lease.value.owner == owner && e.lease.value.token == token
  }

  lemma OtherEvent(db: Database, key: Signal, e: Event, k: Signal)
    requires HasEvent(db, key)
    ensures Look(WithEvent(db, key, e), k) == if k == key then Some(e) else Look(db, k)
  {
  }

  /** A release touches nothing outside its part of the batch, nothing published, and takes this
      cycle's lease off everything else that its call reaches. */
  lemma {:induction false} UnleasedLooks(db: Database, owner: string, token: Token, events: seq<Signal>,
                                         turns: seq<Turn>, from: nat, n: nat, k: Signal)
    requires from <= n <= |events| <= |turns| && Distinct(events)
    ensures k !in events[from..n] ==> Look(Unleased(db, owner, token, events, turns, from, n), k) == Look(db, k)
    ensures forall j | from <= j < n && events[j] == k ::
              Look(Unleased(db, owner, token, events, turns, from, n), k) ==
                if !turns[j].release.FailsBefore? && HasEvent(db, k) && HeldBy(EventOf(db, k), owner, token)
                then Some(WithoutLease(EventOf(db, k)))
                else Look(db, k)
  {
    if from < n {
      UnleasedLooks(db, owner, token, events, turns, from, n - 1, k);
      var before := Unleased(db, owner, token, events, turns, from, n - 1);
      var key := events[n - 1];
      assert k in events[from..n] <==> k in events[from..n - 1] || k == key;
      if HasEvent(before, key) {
        OtherEvent(before, key, WithoutLease(EventOf(before, key)), k);
      }
    }
  }

  predicate AllSucceed(turns: seq<Turn>, n: nat, until: Time) {
    n <= |turns| && forall j | 0 <= j < n :: Succeeds(turns[j], until)
  }

  /** The whole batch is unpublished and under this cycle's lease. */
  predicate Leased(db: Database, owner: string, token: Token, events: seq<Signal>, until: Time) {
    forall j | 0 <= j < |events| ::
      && HasEvent(db, events[j])
      && HeldBy(EventOf(db, events[j]), owner, token)
      && EventOf(db, events[j]).lease.value.until == until
  }

  /** After n marks, each made under the lease, exactly the first n events are published. */
  lemma {:induction false} MarkedLooks(db: Database, owner: string, token: Token, events: seq<Signal>,
                                       turns: seq<Turn>, n: nat, until: Time, k: Signal)
    requires n <= |events| <= |turns| && Distinct(events)
    requires AllSucceed(turns, n, until) && Leased(db, owner, token, events, until)
    ensures k !in events[..n] ==> Look(Marked(db, owner, token, events, turns, n), k) == Look(db, k)
    ensures forall j | 0 <= j < n && events[j] == k ::
              Look(Marked(db, owner, token, events, turns, n), k) ==
                Some(EventOf(db, k).(publishedAt := Some(turns[j].markAt), observedAt := None, lease := None))
  {
    if n == 0 {
    } else {
      MarkedLooks(db, owner, token, events, turns, n - 1, until, k);
      var before := Marked(db, owner, token, events, turns, n - 1);
      var key := events[n - 1];
      MarkedLooks(db, owner, token, events, turns, n - 1, until, key);
      assert key !in events[..n - 1];
      assert k in events[..n] <==> k in events[..n - 1] || k == key;
      OtherEvent(before, key,
                 EventOf(before, key).(publishedAt := Some(turns[n - 1].markAt), observedAt := None, lease := None), k);
    }
  }

  /** The queue once the first n events have been published to it. */
  function Queued(ready: multiset<Signal>, events: seq<Signal>, n: nat): multiset<Signal>
    requires n <= |events|
  {
    ready + multiset(events[..n])
  }

  lemma OneMoreQueued(ready: multiset<Signal>, events: seq<Signal>, n: nat)
    requires n < |events|
    ensures Queued(ready, events, n) + multiset{events[n]} == Queued(ready, events, n + 1)
  {
    assert events[..n + 1] == events[..n] + [events[n]];
  }

  lemma BatchLeased(db: Database, claimed: Database, owner: string, token: Token, events: seq<Signal>, now: Time, until: Time)
    requires KeySet(events) <= Candidates(db, now)
    requires claimed == Statements.ClaimOutbox(db, KeySet(events), Lease(owner, token, until))
    ensures Leased(claimed, owner, token, events, until)
  {
    forall j | 0 <= j < |events|
      ensures HasEvent(claimed, events[j])
      ensures HeldBy(EventOf(claimed, events[j]), owner, token)
      ensures EventOf(claimed, events[j]).lease.value.until == until
    {
      assert events[j] in KeySet(events);
      assert events[j] in Candidates(db, now);
    }
  }

  /** The event reached is still unpublished and under this cycle's lease, so marking it succeeds
      exactly until that lease runs out. */
  lemma ReachedMarkable(claimed: Database, owner: string, token: Token, events: seq<Signal>,
                        turns: seq<Turn>, n: nat, until: Time)
    requires Distinct(events) && Leased(claimed, owner, token, events, until)
    requires n < |events| <= |turns| && AllSucceed(turns, n, until)
    ensures var reached := Marked(claimed, owner, token, events, turns, n);
            Markable(reached, events[n], owner, token, turns[n].markAt) <==> turns[n].markAt < until
  {
    MarkedLooks(claimed, owner, token, events, turns, n, until, events[n]);
    assert events[n] !in events[..n];
  }

  /** The database when a cycle stops after `published` events: the next one may have been marked
      although its call failed. */
  function Stopped(claimed: Database, owner: string, token: Token, events: seq<Signal>, turns: seq<Turn>, published: nat)
    : Database
    requires published <= |events| <= |turns|
  {
    var marked := Marked(claimed, owner, token, events, turns, published);
    if published < |events| && turns[published].confirmed && !turns[published].mark.FailsBefore?
    then MarkPublished(marked, events[published], owner, token, turns[published].markAt)
    else marked
  }

  /** And after the rest of the batch is released. */
  function AfterCycle(claimed: Database, owner: string, token: Token, events: seq<Signal>, turns: seq<Turn>, published: nat)
    : Database
    requires published <= |events| <= |turns|
  {
    Unleased(Stopped(claimed, owner, token, events, turns, published), owner, token, events, turns, published, |events|)
  }

  // ----- What a cycle leaves behind

  /** Stopping touches only the first published + 1 events of the batch. */
  lemma StoppedLooks(claimed: Database, owner: string, token: Token, events: seq<Signal>, turns: seq<Turn>,
                     published: nat, until: Time, k: Signal)
    requires published <= |events| <= |turns| && Distinct(events)
    requires AllSucceed(turns, published, until) && Leased(claimed, owner, token, events, until)
    ensures var now := Look(Stopped(claimed, owner, token, events, turns, published), k);
            && (k !in events ==> now == Look(claimed, k))
            && (forall j | 0 <= j < published && events[j] == k ::
                  now == Some(EventOf(claimed, k).(publishedAt := Some(turns[j].markAt), observedAt := None, lease := None)))
            && (forall j | published < j < |events| && events[j] == k :: now == Look(claimed, k))
            && (published < |events| && k == events[published] ==>
                  || now == Look(claimed, k)
                  || now == Some(EventOf(claimed, k).(publishedAt := Some(turns[published].markAt), observedAt := None, lease := None)))
  {
    var marked := Marked(claimed, owner, token, events, turns, published);
    MarkedLooks(claimed, owner, token, events, turns, published, until, k);
    assert k in events[..published] ==> k in events;
    assert forall j | published <= j < |events| :: events[j] !in events[..published];
    if published < |events| && HasEvent(marked, events[published]) {
      var key := events[published];
      OtherEvent(marked, key,
                 EventOf(marked, key).(publishedAt := Some(turns[published].markAt), observedAt := None, lease := None), k);
    }
  }

  /** The marked events form a prefix of the batch: after the cycle the first `published` ones are
      published at their marking time and hold no lease, and of the others only the very next one
      can be published, by a mark whose answer was lost. */
  lemma MarkedPrefix(claimed: Database, owner: string, token: Token, events: seq<Signal>, turns: seq<Turn>,
                     published: nat, until: Time, j: nat)
    requires published <= |events| <= |turns| && Distinct(events) && j < |events|
    requires AllSucceed(turns, published, until) && Leased(claimed, owner, token, events, until)
    ensures var after := AfterCycle(claimed, owner, token, events, turns, published);
            && HasEvent(after, events[j])
            && (j < published ==>
                  EventOf(after, events[j]).publishedAt == Some(turns[j].markAt) && EventOf(after, events[j]).lease.None?)
            && (j > published ==> EventOf(after, events[j]).publishedAt.None?)
  {
    var stopped := Stopped(claimed, owner, token, events, turns, published);
    StoppedLooks(claimed, owner, token, events, turns, published, until, events[j]);
    UnleasedLooks(stopped, owner, token, events, turns, published, |events|, events[j]);
    if j < published {
      assert forall i | published <= i < |events| :: events[i] != events[j];
      assert events[j] !in events[published..];
      assert events[published..|events|] == events[published..];
    }
  }

  /** Releasing the rest never un-publishes: whatever is published when the cycle stops, by this
      cycle or any other, stays exactly as it is. */
  lemma NeverUnpublishes(stopped: Database, owner: string, token: Token, events: seq<Signal>, turns: seq<Turn>,
                         published: nat, k: Signal)
    requires published <= |events| <= |turns| && Distinct(events)
    requires HasEvent(stopped, k) && EventOf(stopped, k).publishedAt.Some?
    ensures Look(Unleased(stopped, owner, token, events, turns, published, |events|), k) == Look(stopped, k)
  {
    UnleasedLooks(stopped, owner, token, events, turns, published, |events|, k);
    if k in events[published..|events|] {
      var i :| 0 <= i < |events[published..|events|]| && events[published..|events|][i] == k;
      assert events[published + i] == k;
    }
  }

  lemma BatchTokenGone(claimed: Database, owner: string, token: Token, events: seq<Signal>, turns: seq<Turn>,
                       published: nat, until: Time, j: nat)
    requires published <= |events| <= |turns| && Distinct(events) && AllSucceed(turns, published, until)
    requires Leased(claimed, owner, token, events, until) && j < |events|
    requires forall i | published <= i < |events| :: !turns[i].release.FailsBefore?
    ensures !HasToken(AfterCycle(claimed, owner, token, events, turns, published), events[j], token)
  {
    var stopped := Stopped(claimed, owner, token, events, turns, published);
    StoppedLooks(claimed, owner, token, events, turns, published, until, events[j]);
    UnleasedLooks(stopped, owner, token, events, turns, published, |events|, events[j]);
    if j < published {
      assert events[j] !in events[published..|events|];
    }
  }

  lemma OutsideStays(claimed: Database, owner: string, token: Token, events: seq<Signal>, turns: seq<Turn>,
                     published: nat, until: Time, k: Signal)
    requires published <= |events| <= |turns| && Distinct(events) && AllSucceed(turns, published, until)
    requires Leased(claimed, owner, token, events, until) && k !in events
    ensures Look(AfterCycle(claimed, owner, token, events, turns, published), k) == Look(claimed, k)
  {
    var stopped := Stopped(claimed, owner, token, events, turns, published);
    StoppedLooks(claimed, owner, token, events, turns, published, until, k);
    UnleasedLooks(stopped, owner, token, events, turns, published, |events|, k);
    assert k !in events[published..|events|];
  }

  /** If every release goes through, no event still carries this cycle's token. */
  lemma TokenGone(db: Database, claimed: Database, owner: string, token: Token, events: seq<Signal>, turns: seq<Turn>,
                  published: nat, now: Time, until: Time, k: Signal)
    requires published <= |events| <= |turns| && Distinct(events) && AllSucceed(turns, published, until)
    requires KeySet(events) <= Candidates(db, now)
    requires claimed == Statements.ClaimOutbox(db, KeySet(events), Lease(owner, token, until))
    requires forall i | published <= i < |events| :: !turns[i].release.FailsBefore?
    requires !HasToken(db, k, token)
    ensures !HasToken(AfterCycle(claimed, owner, token, events, turns, published), k, token)
  {
    if k in events {
      var j :| 0 <= j < |events| && events[j] == k;
      BatchLeased(db, claimed, owner, token, events, now, until);
      BatchTokenGone(claimed, owner, token, events, turns, published, until, j);
    } else {
      BatchLeased(db, claimed, owner, token, events, now, until);
      OutsideStays(claimed, owner, token, events, turns, published, until, k);
      assert k !in KeySet(events);
      assert Look(claimed, k) == Look(db, k);
    }
  }

  class Publisher {
    const store: DeliveryStore
    const broker: SignalBroker
    const owner: string
    const leaseDuration: Time
    const batchSize: int

    constructor (store: DeliveryStore, broker: SignalBroker, owner: string, leaseDuration: Time, batchSize: int)
      requires owner != "" && leaseDuration > 0 && batchSize > 0
      ensures this.store == store && this.broker == broker && this.owner == owner
      ensures this.leaseDuration == leaseDuration && this.batchSize == batchSize
    {
      this.store := store;
      this.broker := broker;
      this.owner := owner;
      this.leaseDuration := leaseDuration;
      this.batchSize := batchSize;
    }

    /** Publishes one event and, once that is confirmed, marks it; true when both returned nil. */
    method PublishAndMark(event: Signal, token: Token, turn: Turn) returns (ok: bool)
      modifies store, broker
      ensures ok <==> turn.confirmed && turn.mark.Returns? && Markable(old(store.db), event, owner, token, turn.markAt)
      ensures store.db == if turn.confirmed && !turn.mark.FailsBefore?
                          then MarkPublished(old(store.db), event, owner, token, turn.markAt)
                          else old(store.db)
      ensures broker.ready == old(broker.ready) + if turn.enqueued then multiset{event} else multiset{}
    {
      var confirmed := broker.Publish(event, turn);
      if !confirmed || turn.mark.FailsBefore? {
        return false;
      }
      var answer := store.MarkOutboxPublished(event, owner, token, turn.markAt);
      return turn.mark.Returns? && answer.Ok?;
    }

    /** Releases what is left of the batch, ignoring errors. */
    method ReleaseRemaining(events: seq<Signal>, from: nat, token: Token, turns: seq<Turn>)
      requires from <= |events| <= |turns|
      modifies store
      ensures store.db == Unleased(old(store.db), owner, token, events, turns, from, |events|)
    {
      for i := from to |events|
        invariant store.db == Unleased(old(store.db), owner, token, events, turns, from, i)
      {
        if !turns[i].release.FailsBefore? {
          var _ := store.ReleaseOutbox(events[i], owner, token);
        }
      }
    }

    method ClaimBatch(token: Token, locked: set<Signal>, now: Time) returns (events: seq<Signal>)
      requires owner != "" && leaseDuration > 0 && batchSize > 0
      modifies store
      ensures |events| <= batchSize && Distinct(events) && FreeToClaim(old(store.db), events, locked, now)
      ensures store.db == Statements.ClaimOutbox(old(store.db), KeySet(events), Lease(owner, token, now + leaseDuration))
      ensures Leased(store.db, owner, token, events, now + leaseDuration)
    {
      var answer := store.ClaimOutbox(owner, token, leaseDuration, batchSize, locked, now);
      events := answer.value;
      BatchLeased(old(store.db), store.db, owner, token, events, now, now + leaseDuration);
    }

    /** The turn of one event, after `n` successful ones since `claimed` and `ready`. */
    method PublishNext(events: seq<Signal>, n: nat, token: Token, turns: seq<Turn>, ghost until: Time,
                       ghost claimed: Database, ghost ready: multiset<Signal>) returns (ok: bool)
      requires n < |events| <= |turns| && Truthful(turns) && Distinct(events)
      requires Leased(claimed, owner, token, events, until) && AllSucceed(turns, n, until)
      requires store.db == Marked(claimed, owner, token, events, turns, n)
      requires broker.ready == Queued(ready, events, n)
      modifies store, broker
      ensures ok <==> Succeeds(turns[n], until)
      ensures ok ==>
                && AllSucceed(turns, n + 1, until)
                && store.db == Marked(claimed, owner, token, events, turns, n + 1)
                && broker.ready == Queued(ready, events, n + 1)
      ensures !ok ==>
                && store.db == Stopped(claimed, owner, token, events, turns, n)
                && broker.ready == Queued(ready, events, n) + if turns[n].enqueued then multiset{events[n]} else multiset{}
    {
      ReachedMarkable(claimed, owner, token, events, turns, n, until);
      OneMoreQueued(ready, events, n);
      ok := PublishAndMark(events[n], token, turns[n]);
    }

    /** Publishes and marks event by event and stops at the first failure. */
    method PublishBatch(events: seq<Signal>, token: Token, turns: seq<Turn>, ghost until: Time) returns (published: nat)
      requires |events| <= |turns| && Truthful(turns) && Distinct(events) && Leased(store.db, owner, token, events, until)
      modifies store, broker
      ensures published <= |events| && AllSucceed(turns, published, until)
      ensures published < |events| ==> !Succeeds(turns[published], until)
      ensures store.db == Stopped(old(store.db), owner, token, events, turns, published)
      ensures broker.ready == Queued(old(broker.ready), events, published) +
                if published < |events| && turns[published].enqueued then multiset{events[published]} else multiset{}
    {
      ghost var claimed := store.db;
      published := 0;
      while published < |events|
        invariant published <= |events| && AllSucceed(turns, published, until)
        invariant store.db == Marked(claimed, owner, token, events, turns, published)
        invariant broker.ready == Queued(old(broker.ready), events, published)
      {
        var ok := PublishNext(events, published, token, turns, until, claimed, old(broker.ready));
        if !ok {
          return;
        }
        published := published + 1;
      }
    }

    /** The returned count is the length of the longest run of events whose publication was confirmed
        and marked; `events` is the batch that was leased, `claimed` the database just after.  If the
        claim fails, nothing is published, and its leases stay if it committed. */
    method RunOnce(token: Token, locked: set<Signal>, now: Time, claim: Fate, turns: seq<Turn>)
      returns (published: nat, failed: bool, events: seq<Signal>, ghost claimed: Database)
      requires owner != "" && leaseDuration > 0 && 0 < batchSize <= |turns| && Truthful(turns)
      modifies store, broker
      ensures |events| <= |turns| && Distinct(events) && FreeToClaim(old(store.db), events, locked, now)
      ensures claimed == Statements.ClaimOutbox(old(store.db), KeySet(events), Lease(owner, token, now + leaseDuration))
      ensures !claim.Returns? ==> failed && published == 0 && store.db == claimed && broker.ready == old(broker.ready)
      ensures claim.FailsBefore? ==> store.db == old(store.db)
      ensures claim.Returns? ==>
                && published <= |events| && AllSucceed(turns, published, now + leaseDuration)
                && (failed <==> published < |events|)
                && (failed ==> !Succeeds(turns[published], now + leaseDuration))
                && store.db == AfterCycle(claimed, owner, token, events, turns, published)
                && broker.ready == Queued(old(broker.ready), events, published) +
                     if failed && turns[published].enqueued then multiset{events[published]} else multiset{}
    {
      if claim.FailsBefore? {
        ClaimNone(store.db, Lease(owner, token, now + leaseDuration));
        assert KeySet([]) == {};
        return 0, true, [], store.db;
      }
      events := ClaimBatch(token, locked, now);
      claimed := store.db;
      if claim.FailsAfter? {
        return 0, true, events, claimed;
      }
      published := PublishBatch(events, token, turns, now + leaseDuration);
      failed := published < |events|;
      if failed {
        ReleaseRemaining(events, published, token, turns);
      }
    }
  }
}
