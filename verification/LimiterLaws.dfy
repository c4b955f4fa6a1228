/** One destination of the limiter as a value, and what holds of it under every interleaving of
    acquisitions and releases. */
module LimiterLaws {
  import opened Model

  /** Nanoseconds from the zero time that `nextAllowed` starts at. */
  type Instant = nat

  const NANOSECONDS: real := 1_000_000_000.0

  /** One second divided by the rate, one per second by default, cut to a whole nanosecond. */
  function IntervalOf(rate: real): Instant {
    (NANOSECONDS / if rate <= 0.0 then 1.0 else rate).Floor
  }

  datatype Limit = Limit(
    active: int,
    maxConcurrent: int,
    minInterval: Instant,
    nextAllowed: Instant,
    lastSequence: nat)

  function Normalised(maxConcurrency: int): int {
    if maxConcurrency <= 0 then 1 else maxConcurrency
  }

  /** `state`: create the destination's limit, or keep the stricter of each value. */
  function Tighten(known: Option<Limit>, maxConcurrency: int, rate: real): Limit {
    match known
    case None => Limit(0, Normalised(maxConcurrency), IntervalOf(rate), 0, 0)
    case Some(l) =>
      l.(maxConcurrent := Min(Normalised(maxConcurrency), l.maxConcurrent),
         minInterval := Max(l.minInterval, IntervalOf(rate)))
  }

  predicate Grants(l: Limit, now: Instant) {
    l.active < l.maxConcurrent && l.nextAllowed <= now
  }

  function Granted(l: Limit, now: Instant): Limit {
    l.(active := l.active + 1, lastSequence := l.lastSequence + 1, nextAllowed := now + l.minInterval)
  }

  predicate RollsBack(l: Limit, sequence: nat, reservedNext: Instant, claimed: bool) {
    !claimed && l.lastSequence == sequence && l.nextAllowed == reservedNext
  }

  function Released(l: Limit, sequence: nat, previousNext: Instant, reservedNext: Instant, claimed: bool): Limit {
    l.(active := l.active - 1,
       nextAllowed := if RollsBack(l, sequence, reservedNext, claimed) then previousNext else l.nextAllowed)
  }

  // ----- A destination with every permit it ever granted

  datatype Entry = Entry(
    grantedAt: Instant,
    interval: Instant,         // the interval in force at the grant
    previousNext: Instant,
    reservedNext: Instant,
    released: bool,
    rolledBack: bool)

  datatype Ledger = Ledger(limit: Option<Limit>, entries: map<nat, Entry>, seen: set<int>)

  datatype Operation =
    | TryAcquire(maxConcurrency: int, rate: real, now: Instant)
    | Release(sequence: nat, claimed: bool)

  function Empty(): Ledger {
    Ledger(None, map[], {})
  }

  /** The ledger once `state` has been consulted. */
  function Tightened(g: Ledger, maxConcurrency: int, rate: real): Ledger {
    Ledger(Some(Tighten(g.limit, maxConcurrency, rate)), g.entries, g.seen + {Normalised(maxConcurrency)})
  }

  function Grant(g: Ledger, now: Instant): Ledger
    requires g.limit.Some?
  {
    var l := g.limit.value;
    var entry := Entry(now, l.minInterval, l.nextAllowed, now + l.minInterval, false, false);
    g.(limit := Some(Granted(l, now)), entries := g.entries[l.lastSequence + 1 := entry])
  }

  function Acquire(g: Ledger, maxConcurrency: int, rate: real, now: Instant): Ledger {
    var t := Tightened(g, maxConcurrency, rate);
    if Grants(t.limit.value, now) then Grant(t, now) else t
  }

  function Return(g: Ledger, sequence: nat, claimed: bool): Ledger {
    if g.limit.Some? && sequence in g.entries && !g.entries[sequence].released then
      var e := g.entries[sequence];
      g.(limit := Some(Released(g.limit.value, sequence, e.previousNext, e.reservedNext, claimed)),
         entries := g.entries[sequence := e.(released := true,
                                             rolledBack := RollsBack(g.limit.value, sequence, e.reservedNext, claimed))])
    else
      g
  }

  function Apply(g: Ledger, op: Operation): Ledger {
    match op
    case TryAcquire(maxConcurrency, rate, now) => Acquire(g, maxConcurrency, rate, now)
    case Release(sequence, claimed) => Return(g, sequence, claimed)
  }

  function ApplyAll(g: Ledger, ops: seq<Operation>): Ledger
    decreases |ops|
  {
    if ops == [] then g else ApplyAll(Apply(g, ops[0]), ops[1..])
  }

  function Held(g: Ledger): set<nat> {
    set k | k in g.entries && !g.entries[k].released
  }

  // ----- The invariant

  predicate EntryOk(l: Limit, k: nat, e: Entry) {
    && 1 <= k <= l.lastSequence
    && e.previousNext <= e.grantedAt
    && e.reservedNext == e.grantedAt + e.interval
    && e.interval <= l.minInterval
    && (e.rolledBack ==> e.released)
    && (!e.rolledBack ==> e.reservedNext <= l.nextAllowed)
    && (k == l.lastSequence ==> l.nextAllowed == if e.rolledBack then e.previousNext else e.reservedNext)
  }

  /** A reservation that stands is respected by every later grant. */
  predicate Respected(e: Entry, later: Entry) {
    e.interval <= later.interval && (!e.rolledBack ==> e.reservedNext <= later.previousNext)
  }

  predicate EntryAt(g: Ledger, k: nat) {
    k in g.entries ==> g.limit.Some? && EntryOk(g.limit.value, k, g.entries[k])
  }

  predicate RespectedAt(g: Ledger, j: nat, k: nat) {
    j in g.entries && k in g.entries && j < k ==> Respected(g.entries[j], g.entries[k])
  }

  ghost predicate LedgerOk(g: Ledger) {
    && (forall k {:trigger EntryAt(g, k)} :: EntryAt(g, k))
    && (forall j, k {:trigger RespectedAt(g, j, k)} :: RespectedAt(g, j, k))
    && match g.limit
       case None => g.seen == {}
       case Some(l) =>
         && l.active == |Held(g)|
         && l.maxConcurrent in g.seen
         && (forall m | m in g.seen :: l.maxConcurrent <= m)
  }

  lemma TightenKeeps(g: Ledger, maxConcurrency: int, rate: real)
    requires LedgerOk(g)
    ensures LedgerOk(Tightened(g, maxConcurrency, rate))
  {
    var g' := Tightened(g, maxConcurrency, rate);
    forall k ensures EntryAt(g', k) {
      assert EntryAt(g, k);
    }
    forall j, k ensures RespectedAt(g', j, k) {
      assert RespectedAt(g, j, k);
    }
    if g.limit.Some? {
      assert Held(g') == Held(g);
    } else {
      assert Held(g') == {} by {
        assert forall k | k in Held(g') :: EntryAt(g, k);
      }
    }
  }

  lemma GrantEntry(g: Ledger, now: Instant, j: nat, k: nat)
    requires g.limit.Some? && Grants(g.limit.value, now)
    requires EntryAt(g, j) && EntryAt(g, k) && RespectedAt(g, j, k)
    ensures EntryAt(Grant(g, now), k) && RespectedAt(Grant(g, now), j, k)
  {
  }

  lemma GrantHolds(g: Ledger, now: Instant)
    requires g.limit.Some? && EntryAt(g, g.limit.value.lastSequence + 1)
    ensures |Held(Grant(g, now))| == |Held(g)| + 1
  {
    assert Held(Grant(g, now)) == Held(g) + {g.limit.value.lastSequence + 1};
  }

  lemma GrantKeeps(g: Ledger, now: Instant)
    requires LedgerOk(g) && g.limit.Some? && Grants(g.limit.value, now)
    ensures LedgerOk(Grant(g, now))
  {
    assert EntryAt(g, g.limit.value.lastSequence + 1);
    GrantHolds(g, now);
    forall k ensures EntryAt(Grant(g, now), k) {
      assert RespectedAt(g, k, k) && EntryAt(g, k);
      GrantEntry(g, now, k, k);
    }
    forall j, k ensures RespectedAt(Grant(g, now), j, k) {
      assert RespectedAt(g, j, k) && EntryAt(g, j) && EntryAt(g, k);
      GrantEntry(g, now, j, k);
    }
  }

  lemma AcquireKeeps(g: Ledger, maxConcurrency: int, rate: real, now: Instant)
    requires LedgerOk(g)
    ensures LedgerOk(Acquire(g, maxConcurrency, rate, now))
  {
    TightenKeeps(g, maxConcurrency, rate);
    var t := Tightened(g, maxConcurrency, rate);
    if Grants(t.limit.value, now) {
      GrantKeeps(t, now);
    }
  }

  lemma ReturnKeeps(g: Ledger, sequence: nat, claimed: bool)
    requires LedgerOk(g)
    ensures LedgerOk(Return(g, sequence, claimed))
  {
    if g.limit.Some? && sequence in g.entries && !g.entries[sequence].released {
      var g' := Return(g, sequence, claimed);
      assert Held(g') == Held(g) - {sequence};
      assert EntryAt(g, sequence);
      forall k ensures EntryAt(g', k) {
        assert EntryAt(g, k) && RespectedAt(g, k, sequence);
      }
      forall j, k ensures RespectedAt(g', j, k) {
        assert RespectedAt(g, j, k);
      }
    }
  }

  lemma {:induction false} AllKeep(g: Ledger, ops: seq<Operation>)
    requires LedgerOk(g)
    ensures LedgerOk(ApplyAll(g, ops))
    decreases |ops|
  {
    if ops == [] {
    } else {
      match ops[0] {
        case TryAcquire(maxConcurrency, rate, now) => AcquireKeeps(g, maxConcurrency, rate, now);
        case Release(sequence, claimed) => ReturnKeeps(g, sequence, claimed);
      }
      AllKeep(Apply(g, ops[0]), ops[1..]);
    }
  }

  // ----- What every interleaving guarantees

  /** Permits in the order granted, whose reservations all stand, granted when the interval was at
      least `interval`. */
  predicate Standing(g: Ledger, ks: seq<nat>, interval: Instant) {
    && (forall i :: 0 <= i < |ks| ==>
          ks[i] in g.entries && !g.entries[ks[i]].rolledBack && interval <= g.entries[ks[i]].interval)
    && (forall i, j :: 0 <= i < j < |ks| ==> ks[i] < ks[j])
  }

  lemma {:induction false} StandingSpaced(g: Ledger, ks: seq<nat>, interval: Instant)
    requires LedgerOk(g) && |ks| > 0 && Standing(g, ks, interval)
    ensures g.entries[ks[0]].grantedAt + (|ks| - 1) * interval <= g.entries[ks[|ks| - 1]].grantedAt
  {
    if |ks| > 1 {
      var last := |ks| - 1;
      var front := ks[..last];
      assert forall i :: 0 <= i < last ==> front[i] == ks[i];
      StandingSpaced(g, front, interval);
      assert front[|front| - 1] == ks[last - 1];
      assert RespectedAt(g, ks[last - 1], ks[last]);
      assert EntryAt(g, ks[last]) && EntryAt(g, ks[last - 1]);
      assert (|ks| - 1) * interval == (|front| - 1) * interval + interval;
    }
  }

  /** Under every interleaving, n standing reservations span at least n - 1 intervals: a rollback
      never lets the rate be exceeded. */
  lemma ReservationsSpaced(ops: seq<Operation>, ks: seq<nat>, interval: Instant)
    requires |ks| > 0 && Standing(ApplyAll(Empty(), ops), ks, interval)
    ensures var g := ApplyAll(Empty(), ops);
            g.entries[ks[0]].grantedAt + (|ks| - 1) * interval <= g.entries[ks[|ks| - 1]].grantedAt
  {
    AllKeep(Empty(), ops);
    StandingSpaced(ApplyAll(Empty(), ops), ks, interval);
  }

  lemma ScaleReal(a: real, b: real, c: real)
    requires a <= b && 0.0 <= c
    ensures c * a <= c * b
  {
  }

  lemma OrderReal(a: int, b: int)
    requires a <= b
    ensures a as real <= b as real
  {
  }

  lemma ProductReal(a: int, b: int)
    ensures a as real * b as real == (a * b) as real
  {
  }

  lemma SpacingIsRate(n: nat, interval: Instant, elapsed: int, rate: real)
    requires rate > 0.0 && interval == IntervalOf(rate) && n * interval <= elapsed
    ensures n as real * NANOSECONDS <= rate * (elapsed + n) as real
  {
    var exact := NANOSECONDS / rate;
    assert n as real * exact <= (elapsed + n) as real by {
      ScaleReal(exact, (interval + 1) as real, n as real);
      ProductReal(n, interval + 1);
      assert n * (interval + 1) == n * interval + n;
      OrderReal(n * (interval + 1), elapsed + n);
    }
    ScaleReal(n as real * exact, (elapsed + n) as real, rate);
    assert rate * exact == NANOSECONDS;
    assert rate * (n as real * exact) == n as real * (rate * exact);
  }

  /** In terms of the configured rate: between the first and the last of n standing reservations, all
      made while the rate was at most `rate`, at most rate times the elapsed time are granted, up to
      the nanosecond per permit that the cut interval loses. */
  lemma RateHonoured(ops: seq<Operation>, ks: seq<nat>, rate: real)
    requires rate > 0.0 && |ks| > 0 && Standing(ApplyAll(Empty(), ops), ks, IntervalOf(rate))
    ensures var g := ApplyAll(Empty(), ops);
            var elapsed := g.entries[ks[|ks| - 1]].grantedAt - g.entries[ks[0]].grantedAt;
            (|ks| - 1) as real * NANOSECONDS <= rate * (elapsed + |ks| - 1) as real
  {
    ReservationsSpaced(ops, ks, IntervalOf(rate));
    var g := ApplyAll(Empty(), ops);
    var elapsed := g.entries[ks[|ks| - 1]].grantedAt - g.entries[ks[0]].grantedAt;
    SpacingIsRate(|ks| - 1, IntervalOf(rate), elapsed, rate);
  }

  /** For a permit not yet released, being the newest already means that `nextAllowed` is what it
      reserved: the second test of the rollback decides nothing, and the rollback gives back exactly
      the value from before the grant. */
  lemma RollbackExact(ops: seq<Operation>, sequence: nat)
    requires var g := ApplyAll(Empty(), ops);
             g.limit.Some? && sequence in g.entries && !g.entries[sequence].released
    ensures var g := ApplyAll(Empty(), ops);
            var g' := Apply(g, Release(sequence, false));
            && g'.limit.Some?
            && (g.limit.value.lastSequence == sequence ==>
                  && g.limit.value.nextAllowed == g.entries[sequence].reservedNext
                  && g'.limit.value.nextAllowed == g.entries[sequence].previousNext)
            && (g.limit.value.lastSequence != sequence ==>
                  g'.limit.value.nextAllowed == g.limit.value.nextAllowed)
  {
    AllKeep(Empty(), ops);
    var g := ApplyAll(Empty(), ops);
    assert EntryAt(g, sequence);
  }

  /** `active` counts the permits granted and not released; right after a grant it is within every
      concurrency limit seen so far for the destination. */
  lemma ConcurrencyBounded(ops: seq<Operation>, maxConcurrency: int, rate: real, now: Instant)
    ensures var g := ApplyAll(Empty(), ops);
            var g' := Apply(g, TryAcquire(maxConcurrency, rate, now));
            && g'.limit.Some?
            && g'.limit.value.active == |Held(g')|
            && (g'.entries != g.entries ==>
                  forall m | m in g'.seen :: g'.limit.value.active <= m)
  {
    AllKeep(Empty(), ops);
    AcquireKeeps(ApplyAll(Empty(), ops), maxConcurrency, rate, now);
  }
}
