/** The Outbox leases of Publisher cycles that interleave with each other and with everything else:
    which events can still carry the token of a cycle. */
module OutboxLeases {
  import opened Model
  import opened Statements
  import opened Protocol
  import opened Invariant
  import opened Preservation

  // ----- Runs in which tokens are UUIDs

  function TokensOf(step: Step): set<Token> {
    if step.Publisher? && step.publisher.ClaimBatch? then {step.publisher.token} else {}
  }

  /** Every batch is claimed under a token that was not used before. */
  predicate FreshTokens(s: System, steps: seq<Step>, used: set<Token>)
    requires ValidRun(s, steps)
    decreases |steps|
  {
    steps != [] ==>
      TokensOf(steps[0]) !! used && FreshTokens(Next(s, steps[0]), steps[1..], used + TokensOf(steps[0]))
  }

  /** The release that this step tries and that does not reach the database. */
  function MissedBy(s: System, step: Step): set<(Token, Signal)>
    requires Enabled(s, step)
  {
    if step.Publisher? && step.publisher.Release? && step.publisher.fate.FailsBefore? then
      var cycle := s.cycles[step.cycle];
      {(cycle.token, cycle.keys[cycle.next])}
    else
      {}
  }

  /** Those of a whole run, added to the earlier ones. */
  function Missed(s: System, steps: seq<Step>, earlier: set<(Token, Signal)>): set<(Token, Signal)>
    requires ValidRun(s, steps)
    decreases |steps|
  {
    if steps == [] then earlier else Missed(Next(s, steps[0]), steps[1..], earlier + MissedBy(s, steps[0]))
  }

  // ----- The invariant

  predicate Leased(db: Database, key: Signal) {
    HasEvent(db, key) && EventOf(db, key).lease.Some?
  }

  function LeaseOf(db: Database, key: Signal): Lease
    requires Leased(db, key)
  {
    EventOf(db, key).lease.value
  }

  /** A lease with the token of a live cycle was taken by that cycle, and is still to be settled by it
      unless the release was missed. */
  predicate Owned(cycle: Cycle, missed: set<(Token, Signal)>, key: Signal, lease: Lease) {
    cycle.next <= |cycle.keys| && cycle.token == lease.token ==>
      && cycle.owner == lease.owner
      && (key in cycle.keys[cycle.next..] || (cycle.token, key) in missed)
  }

  predicate LeaseAt(s: System, used: set<Token>, missed: set<(Token, Signal)>, c: nat, key: Signal) {
    Leased(s.db, key) ==>
      && LeaseOf(s.db, key).token in used
      && (c in s.cycles ==> Owned(s.cycles[c], missed, key, LeaseOf(s.db, key)))
  }

  predicate TokenAt(s: System, used: set<Token>, c: nat, d: nat) {
    c in s.cycles ==>
      && s.cycles[c].token in used
      && s.cycles[c].next <= |s.cycles[c].keys|
      && (d in s.cycles && s.cycles[c].token == s.cycles[d].token ==> c == d)
  }

  ghost predicate LeasesOk(s: System, used: set<Token>, missed: set<(Token, Signal)>) {
    && (forall c, key {:trigger LeaseAt(s, used, missed, c, key)} :: LeaseAt(s, used, missed, c, key))
    && (forall c, d {:trigger TokenAt(s, used, c, d)} :: TokenAt(s, used, c, d))
  }

  // ----- Steps of everyone else

  /** The event carries no lease that it did not carry before. */
  predicate NoNewLease(db: Database, db': Database, key: Signal) {
    Leased(db', key) ==> Leased(db, key) && LeaseOf(db', key) == LeaseOf(db, key)
  }

  lemma ApiLeases(s: System, step: ApiStep, key: Signal)
    requires ApiEnabled(s, step)
    ensures NoNewLease(s.db, ApiNext(s, step).db, key)
    ensures ApiNext(s, step).cycles == s.cycles
  {
  }

  lemma WorkerLeases(s: System, t: nat, step: WorkerStep, key: Signal)
    requires WorkerEnabled(s, t, step)
    ensures NoNewLease(s.db, WorkerNext(s, t, step).db, key)
    ensures WorkerNext(s, t, step).cycles == s.cycles
  {
    HandlerStatement(s, t, step);
  }

  lemma MaintenanceLeases(s: System, step: MaintenanceStep, key: Signal)
    requires MaintenanceEnabled(s, step)
    ensures NoNewLease(s.db, MaintenanceNext(s, step).db, key)
    ensures MaintenanceNext(s, step).cycles == s.cycles
  {
  }

  lemma BrokerLeases(s: System, step: BrokerStep)
    requires BrokerEnabled(s, step)
    ensures BrokerNext(s, step).db == s.db && BrokerNext(s, step).cycles == s.cycles
  {
  }

  lemma OthersLease(s: System, step: Step, s': System, key: Signal)
    requires !step.Publisher? && Enabled(s, step) && s' == Next(s, step)
    ensures NoNewLease(s.db, s'.db, key) && s'.cycles == s.cycles
  {
    match step
    case Api(api) => ApiLeases(s, api, key);
    case Worker(t, worker) => WorkerLeases(s, t, worker, key);
    case Broker(broker) => BrokerLeases(s, broker);
    case Maintenance(maintenance) => MaintenanceLeases(s, maintenance, key);
  }

  lemma OthersKeepLeases(s: System, step: Step, used: set<Token>, missed: set<(Token, Signal)>)
    requires LeasesOk(s, used, missed) && !step.Publisher? && Enabled(s, step)
    ensures LeasesOk(Next(s, step), used, missed)
  {
    var s' := Next(s, step);
    forall c, key ensures LeaseAt(s', used, missed, c, key) {
      assert LeaseAt(s, used, missed, c, key);
      OthersLease(s, step, s', key);
    }
    forall c, d ensures TokenAt(s', used, c, d) {
      assert TokenAt(s, used, c, d);
      OthersLease(s, step, s', Signal(0, 0));
    }
  }

  // ----- Steps of the Publisher

  lemma ClaimLeases(db: Database, keys: set<Signal>, lease: Lease, key: Signal)
    ensures var db' := ClaimOutbox(db, keys, lease);
            if key in keys && HasEvent(db, key)
            then Leased(db', key) && LeaseOf(db', key) == lease
            else NoNewLease(db, db', key)
  {
  }

  lemma ClaimKeepsLeases(s: System, c: nat, step: PublisherStep, used: set<Token>, missed: set<(Token, Signal)>)
    requires LeasesOk(s, used, missed) && step.ClaimBatch? && PublisherEnabled(s, c, step) && step.token !in used
    ensures LeasesOk(PublisherNext(s, c, step), used + {step.token}, missed)
  {
    var s' := PublisherNext(s, c, step);
    forall x, key ensures LeaseAt(s', used + {step.token}, missed, x, key) {
      assert LeaseAt(s, used, missed, x, key) && TokenAt(s, used, x, x);
      ClaimLeases(s.db, (set k | k in step.keys), Lease(step.owner, step.token, step.at + s.cfg.outboxLease), key);
    }
    forall x, y ensures TokenAt(s', used + {step.token}, x, y) {
      assert TokenAt(s, used, x, y) && TokenAt(s, used, y, x);
    }
  }

  /** A step of cycle `c` that gives up leases and moves its index past nothing that keeps one. */
  lemma SettleKeepsLeases(s: System, s': System, c: nat, used: set<Token>, missed: set<(Token, Signal)>, more: set<(Token, Signal)>)
    requires LeasesOk(s, used, missed) && missed <= more
    requires forall x | x in s'.cycles && x != c :: x in s.cycles && s'.cycles[x] == s.cycles[x]
    requires c in s.cycles && c in s'.cycles
    requires var a, b := s.cycles[c], s'.cycles[c];
             && b.owner == a.owner && b.token == a.token && b.keys == a.keys
             && (b.next == a.next || (b.next == a.next + 1 <= |a.keys|))
    requires forall key {:trigger NoNewLease(s.db, s'.db, key)} :: NoNewLease(s.db, s'.db, key)
    requires var a, b := s.cycles[c], s'.cycles[c];
             b.next == a.next + 1 && Leased(s'.db, a.keys[a.next]) && LeaseOf(s'.db, a.keys[a.next]).token == a.token ==>
               (a.token, a.keys[a.next]) in more
    ensures LeasesOk(s', used, more)
  {
    forall x, key ensures LeaseAt(s', used, more, x, key) {
      assert LeaseAt(s, used, missed, x, key) && TokenAt(s, used, x, x) && NoNewLease(s.db, s'.db, key);
      var a := s.cycles[c];
      assert a.next < |a.keys| && key in a.keys[a.next..] ==> key == a.keys[a.next] || key in a.keys[a.next + 1..];
    }
    forall x, y ensures TokenAt(s', used, x, y) {
      assert TokenAt(s, used, x, y);
    }
  }

  lemma MarkKeepsLeases(s: System, c: nat, step: PublisherStep, used: set<Token>, missed: set<(Token, Signal)>)
    requires LeasesOk(s, used, missed) && step.Mark? && PublisherEnabled(s, c, step)
    ensures LeasesOk(PublisherNext(s, c, step), used, missed)
  {
    SettleKeepsLeases(s, PublisherNext(s, c, step), c, used, missed, missed);
  }

  lemma ReleaseKeepsLeases(s: System, c: nat, step: PublisherStep, used: set<Token>, missed: set<(Token, Signal)>)
    requires Inv(s) && LeasesOk(s, used, missed) && step.Release? && PublisherEnabled(s, c, step)
    ensures LeasesOk(PublisherNext(s, c, step), used, missed + MissedBy(s, Publisher(c, step)))
  {
    var s' := PublisherNext(s, c, step);
    var key := s.cycles[c].keys[s.cycles[c].next];
    assert LeaseAt(s, used, missed, c, key) && TokenAt(s, used, c, c) && RowAt(s, key.id);
    SettleKeepsLeases(s, s', c, used, missed, missed + MissedBy(s, Publisher(c, step)));
  }

  lemma EndKeepsLeases(s: System, c: nat, used: set<Token>, missed: set<(Token, Signal)>)
    requires LeasesOk(s, used, missed) && c in s.cycles
    ensures LeasesOk(s.(cycles := s.cycles - {c}), used, missed)
  {
    var s' := s.(cycles := s.cycles - {c});
    forall x, key ensures LeaseAt(s', used, missed, x, key) {
      assert LeaseAt(s, used, missed, x, key);
    }
    forall x, y ensures TokenAt(s', used, x, y) {
      assert TokenAt(s, used, x, y);
    }
  }

  lemma PublisherKeepsLeases(s: System, c: nat, step: PublisherStep, used: set<Token>, missed: set<(Token, Signal)>)
    requires Inv(s) && LeasesOk(s, used, missed) && PublisherEnabled(s, c, step)
    requires TokensOf(Publisher(c, step)) !! used
    ensures LeasesOk(PublisherNext(s, c, step), used + TokensOf(Publisher(c, step)),
                     missed + MissedBy(s, Publisher(c, step)))
  {
    var s' := PublisherNext(s, c, step);
    assert step.ClaimBatch? || used + TokensOf(Publisher(c, step)) == used;
    assert step.Release? || missed + MissedBy(s, Publisher(c, step)) == missed;
    match step
    case ClaimBatch(_, _, _, _) => ClaimKeepsLeases(s, c, step, used, missed);
    case Publish(_, _) => SettleKeepsLeases(s, s', c, used, missed, missed);
    case Mark(_, _) => MarkKeepsLeases(s, c, step, used, missed);
    case Release(_) => ReleaseKeepsLeases(s, c, step, used, missed);
    case EndCycle => EndKeepsLeases(s, c, used, missed);
  }

  lemma StepKeepsLeases(s: System, step: Step, used: set<Token>, missed: set<(Token, Signal)>)
    requires Inv(s) && LeasesOk(s, used, missed) && Enabled(s, step) && TokensOf(step) !! used
    ensures LeasesOk(Next(s, step), used + TokensOf(step), missed + MissedBy(s, step))
  {
    if step.Publisher? {
      PublisherKeepsLeases(s, step.cycle, step.publisher, used, missed);
    } else {
      OthersKeepLeases(s, step, used, missed);
      assert used + TokensOf(step) == used && missed + MissedBy(s, step) == missed;
    }
  }

  lemma {:induction false} RunKeepsLeases(s: System, steps: seq<Step>, used: set<Token>, missed: set<(Token, Signal)>)
    returns (used': set<Token>)
    requires Inv(s) && LeasesOk(s, used, missed) && ValidRun(s, steps) && FreshTokens(s, steps, used)
    ensures LeasesOk(Run(s, steps), used', Missed(s, steps, missed))
    decreases |steps|
  {
    if steps == [] {
      used' := used;
    } else {
      StepKeeps(s, steps[0]);
      StepKeepsLeases(s, steps[0], used, missed);
      used' := RunKeepsLeases(Next(s, steps[0]), steps[1..], used + TokensOf(steps[0]), missed + MissedBy(s, steps[0]));
    }
  }

  // ----- The theorem

  /** However cycles, Workers and maintenance interleave, an event that carries the token of a live
      cycle is one that this cycle has not settled yet, or one whose release did not reach the
      database; so once the index has passed the whole batch, only missed releases are left. */
  lemma TokensSettled(cfg: Config, start: Time, steps: seq<Step>, c: nat, key: Signal)
    requires ValidConfig(cfg) && ValidRun(Init(cfg, start), steps) && FreshTokens(Init(cfg, start), steps, {})
    requires var s := Run(Init(cfg, start), steps); c in s.cycles && HasToken(s.db, key, s.cycles[c].token)
    ensures var s := Run(Init(cfg, start), steps);
            var cycle := s.cycles[c];
            && cycle.next <= |cycle.keys|
            && LeaseOf(s.db, key).owner == cycle.owner
            && (key in cycle.keys[cycle.next..] || (cycle.token, key) in Missed(Init(cfg, start), steps, {}))
  {
    var init := Init(cfg, start);
    var s := Run(init, steps);
    var used := RunKeepsLeases(init, steps, {}, {});
    assert LeaseAt(s, used, Missed(init, steps, {}), c, key) && TokenAt(s, used, c, c);
  }
}
