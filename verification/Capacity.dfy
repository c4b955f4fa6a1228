/** The destination limiter and the handlers of one Worker process together: under every interleaving,
    as many handlers are past `tryAcquire` for a destination as the limiter counts, and never more
    than its concurrency limits allow. */
module Capacity {
  import opened Model
  import opened Statements
  import opened Protocol
  import opened Invariant
  import opened Preservation
  import opened Runs
  import opened Coverage
  import opened Refinement
  import L = LimiterLaws

  /** The permit that a handler carries: the destination it was granted for, and its number there. */
  datatype Pass = Pass(destination: string, sequence: nat)

  datatype Node = Node(sys: System, ledgers: map<string, L.Ledger>, passes: map<nat, Pass>)

  /** A step of the protocol, with the destination settings and the clock reading that `tryAcquire`
      works with if the step is one. */
  datatype Move = Move(step: Step, destination: string, maxConcurrency: int, rate: real, clock: L.Instant)

  function LedgerOf(n: Node, d: string): L.Ledger {
    if d in n.ledgers then n.ledgers[d] else L.Empty()
  }

  predicate Acquires(step: Step) {
    step.Worker? && step.worker.Acquire?
  }

  /** The handler is between its permit and the release. */
  predicate Holding(s: System, t: nat) {
    t in s.tasks && (s.tasks[t].phase.Permitted? || s.tasks[t].phase.Sending? || s.tasks[t].phase.Completing?)
  }

  function Asked(n: Node, m: Move): L.Ledger {
    L.Apply(LedgerOf(n, m.destination), L.TryAcquire(m.maxConcurrency, m.rate, m.clock))
  }

  predicate Grants(n: Node, m: Move) {
    L.Grants(L.Tightened(LedgerOf(n, m.destination), m.maxConcurrency, m.rate).limit.value, m.clock)
  }

  /** `tryAcquire` answers as the limiter does, for the destination of the delivery. */
  predicate MoveEnabled(n: Node, m: Move) {
    && Enabled(n.sys, m.step)
    && (Acquires(m.step) ==>
          && m.step.worker.granted == Grants(n, m)
          && var id := n.sys.tasks[m.step.task].signal.id;
             id in n.sys.db ==> n.sys.db[id].row.request.destination == m.destination)
  }

  /** The handler that this step takes out of its permit. */
  predicate Leaves(n: Node, m: Move)
    requires Enabled(n.sys, m.step)
  {
    m.step.Worker? && m.step.task in n.passes && !Holding(Next(n.sys, m.step), m.step.task)
  }

  function Returned(n: Node, t: nat): L.Ledger
    requires t in n.passes
  {
    var pass := n.passes[t];
    var claimed := t in n.sys.tasks && !n.sys.tasks[t].phase.Permitted?;
    L.Apply(LedgerOf(n, pass.destination), L.Release(pass.sequence, claimed))
  }

  function MoveNext(n: Node, m: Move): Node
    requires MoveEnabled(n, m)
  {
    var sys := Next(n.sys, m.step);
    if Acquires(m.step) then
      var g := Asked(n, m);
      Node(sys, n.ledgers[m.destination := g],
           if Grants(n, m) then n.passes[m.step.task := Pass(m.destination, g.limit.value.lastSequence)] else n.passes)
    else if Leaves(n, m) then
      var t := m.step.task;
      Node(sys, n.ledgers[n.passes[t].destination := Returned(n, t)], n.passes - {t})
    else
      Node(sys, n.ledgers, n.passes)
  }

  predicate ValidMoves(n: Node, moves: seq<Move>)
    decreases |moves|
  {
    moves != [] ==> MoveEnabled(n, moves[0]) && ValidMoves(MoveNext(n, moves[0]), moves[1..])
  }

  function After(n: Node, moves: seq<Move>): Node
    requires ValidMoves(n, moves)
    decreases |moves|
  {
    if moves == [] then n else After(MoveNext(n, moves[0]), moves[1..])
  }

  function Start(cfg: Config, start: Time): Node {
    Node(Init(cfg, start), map[], map[])
  }

  // ----- The invariant

  function Holders(n: Node, d: string): set<nat> {
    set t | t in n.passes && n.passes[t].destination == d
  }

  predicate PassAt(n: Node, t: nat) {
    && (t in n.passes <==> Holding(n.sys, t))
    && (t in n.passes ==> n.passes[t].sequence in L.Held(LedgerOf(n, n.passes[t].destination)))
  }

  predicate PairAt(n: Node, t: nat, u: nat) {
    t in n.passes && u in n.passes && n.passes[t] == n.passes[u] ==> t == u
  }

  /** The limiter never counts more than some limit it has seen. */
  ghost predicate Within(g: L.Ledger) {
    g.limit.Some? ==> exists m :: m in g.seen && g.limit.value.active <= m
  }

  ghost predicate LedgerAt(n: Node, d: string) {
    && L.LedgerOk(LedgerOf(n, d))
    && Within(LedgerOf(n, d))
    && |Holders(n, d)| == |L.Held(LedgerOf(n, d))|
  }

  ghost predicate NodeOk(n: Node) {
    && Reachable(n.sys)
    && (forall t {:trigger PassAt(n, t)} :: PassAt(n, t))
    && (forall t, u {:trigger PairAt(n, t, u)} :: PairAt(n, t, u))
    && (forall d {:trigger LedgerAt(n, d)} :: LedgerAt(n, d))
  }

  // ----- Phases

  /** Only a granted `tryAcquire` brings a handler in. */
  lemma OwnHolding(s: System, t: nat, w: WorkerStep)
    requires WorkerEnabled(s, t, w)
    ensures var s' := WorkerNext(s, t, w);
            && (w.Acquire? ==> !Holding(s, t) && (Holding(s', t) <==> w.granted))
            && (!w.Acquire? && Holding(s', t) ==> Holding(s, t))
  {
    match w
    case ClaimRow(_, _, _, _) =>
    case CompleteRow(_, _) =>
    case _ =>
  }

  lemma OthersHolding(s: System, step: Step, t: nat)
    requires Enabled(s, step) && !Own(step, t)
    ensures Holding(Next(s, step), t) <==> Holding(s, t)
  {
    if step.Worker? {
      HandlerTasks(s, step.task, step.worker, if step.worker.Deliver? then step.worker.signal else s.tasks[step.task].signal);
    } else {
      OtherParty(s, step);
    }
  }

  // ----- What the limiter does

  lemma AcquireHeld(g: L.Ledger, maxConcurrency: int, rate: real, now: L.Instant)
    requires L.LedgerOk(g) && Within(g)
    ensures var t := L.Tightened(g, maxConcurrency, rate);
            var g' := L.Acquire(g, maxConcurrency, rate, now);
            && g'.limit.Some?
            && L.LedgerOk(g') && Within(g')
            && (if L.Grants(t.limit.value, now)
                then && g'.limit.value.lastSequence !in L.Held(g)
                     && L.Held(g') == L.Held(g) + {g'.limit.value.lastSequence}
                     && (forall m | m in g'.seen :: g'.limit.value.active <= m)
                else L.Held(g') == L.Held(g))
  {
    L.AcquireKeeps(g, maxConcurrency, rate, now);
    var t := L.Tightened(g, maxConcurrency, rate);
    var g' := L.Acquire(g, maxConcurrency, rate, now);
    assert L.EntryAt(g, t.limit.value.lastSequence + 1);
    if L.Grants(t.limit.value, now) {
      assert g'.limit.value.maxConcurrent in g'.seen;
    } else if g.limit.Some? {
      var m :| m in g.seen && g.limit.value.active <= m;
      assert m in g'.seen;
    } else {
      assert g'.limit.value.maxConcurrent in g'.seen;
    }
  }

  lemma ReturnHeld(g: L.Ledger, sequence: nat, claimed: bool)
    requires L.LedgerOk(g) && Within(g) && sequence in L.Held(g)
    ensures var g' := L.Return(g, sequence, claimed);
            L.LedgerOk(g') && Within(g') && L.Held(g') == L.Held(g) - {sequence}
  {
    L.ReturnKeeps(g, sequence, claimed);
    assert L.EntryAt(g, sequence);
    var m :| m in g.seen && g.limit.value.active <= m;
    assert m in L.Return(g, sequence, claimed).seen;
  }

  // ----- Each kind of move

  /** The same handlers hold permits as before, but for `t`. */
  ghost predicate OnlyMoves(n: Node, n': Node, t: nat) {
    forall u {:trigger Holding(n'.sys, u)} :: u != t ==> (Holding(n'.sys, u) <==> Holding(n.sys, u))
  }

  lemma StepOnlyMoves(n: Node, m: Move)
    requires MoveEnabled(n, m) && m.step.Worker?
    ensures OnlyMoves(n, MoveNext(n, m), m.step.task)
  {
    forall u | u != m.step.task ensures Holding(MoveNext(n, m).sys, u) <==> Holding(n.sys, u) {
      OthersHolding(n.sys, m.step, u);
    }
  }

  lemma EnterPasses(n: Node, n': Node, t: nat, d: string, sequence: nat)
    requires NodeOk(n) && OnlyMoves(n, n', t) && Holding(n'.sys, t) && t !in n.passes
    requires n'.passes == n.passes[t := Pass(d, sequence)]
    requires forall e | e != d :: LedgerOf(n', e) == LedgerOf(n, e)
    requires sequence !in L.Held(LedgerOf(n, d))
    requires L.Held(LedgerOf(n', d)) == L.Held(LedgerOf(n, d)) + {sequence}
    ensures forall u {:trigger PassAt(n', u)} :: PassAt(n', u)
    ensures forall u, v {:trigger PairAt(n', u, v)} :: PairAt(n', u, v)
  {
    forall u ensures PassAt(n', u) {
      assert PassAt(n, u);
    }
    forall u, v ensures PairAt(n', u, v) {
      assert PairAt(n, u, v) && PassAt(n, u) && PassAt(n, v);
    }
  }

  lemma OneMore(all: set<nat>, k: nat)
    requires k !in all
    ensures |all + {k}| == |all| + 1
  {
  }

  lemma OneLess(all: set<nat>, k: nat)
    requires k in all
    ensures |all - {k}| == |all| - 1
  {
  }

  lemma HoldersEnter(n: Node, n': Node, t: nat, pass: Pass, e: string)
    requires t !in n.passes && n'.passes == n.passes[t := pass]
    ensures |Holders(n', e)| == |Holders(n, e)| + if e == pass.destination then 1 else 0
  {
    assert Holders(n', e) == if e == pass.destination then Holders(n, e) + {t} else Holders(n, e);
  }

  lemma HoldersLeave(n: Node, n': Node, t: nat, e: string)
    requires t in n.passes && n'.passes == n.passes - {t}
    ensures |Holders(n', e)| == |Holders(n, e)| - if e == n.passes[t].destination then 1 else 0
  {
    assert Holders(n', e) == if e == n.passes[t].destination then Holders(n, e) - {t} else Holders(n, e);
  }

  lemma EnterLedgers(n: Node, n': Node, t: nat, d: string, sequence: nat)
    requires NodeOk(n) && t !in n.passes
    requires n'.passes == n.passes[t := Pass(d, sequence)]
    requires forall e | e != d :: LedgerOf(n', e) == LedgerOf(n, e)
    requires L.LedgerOk(LedgerOf(n', d)) && Within(LedgerOf(n', d))
    requires sequence !in L.Held(LedgerOf(n, d))
    requires L.Held(LedgerOf(n', d)) == L.Held(LedgerOf(n, d)) + {sequence}
    ensures forall e {:trigger LedgerAt(n', e)} :: LedgerAt(n', e)
  {
    OneMore(L.Held(LedgerOf(n, d)), sequence);
    forall e ensures LedgerAt(n', e) {
      assert LedgerAt(n, e);
      HoldersEnter(n, n', t, Pass(d, sequence), e);
    }
  }

  lemma GrantMove(n: Node, m: Move)
    requires NodeOk(n) && MoveEnabled(n, m) && Acquires(m.step) && Grants(n, m)
    ensures NodeOk(MoveNext(n, m))
    ensures forall x | x in LedgerOf(MoveNext(n, m), m.destination).seen :: |Holders(MoveNext(n, m), m.destination)| <= x
  {
    var n' := MoveNext(n, m);
    var t, d := m.step.task, m.destination;
    ReachableNext(n.sys, m.step);
    assert LedgerAt(n, d) && PassAt(n, t);
    OwnHolding(n.sys, t, m.step.worker);
    StepOnlyMoves(n, m);
    AcquireHeld(LedgerOf(n, d), m.maxConcurrency, m.rate, m.clock);
    EnterPasses(n, n', t, d, n'.passes[t].sequence);
    EnterLedgers(n, n', t, d, n'.passes[t].sequence);
    assert LedgerAt(n', d);
  }

  /** No permit changes hands, and the limiters hold what they held. */
  lemma SameNode(n: Node, n': Node, d: string)
    requires NodeOk(n) && Reachable(n'.sys) && n'.passes == n.passes
    requires forall u {:trigger Holding(n'.sys, u)} :: Holding(n'.sys, u) <==> Holding(n.sys, u)
    requires forall e | e != d :: LedgerOf(n', e) == LedgerOf(n, e)
    requires L.LedgerOk(LedgerOf(n', d)) && Within(LedgerOf(n', d)) && L.Held(LedgerOf(n', d)) == L.Held(LedgerOf(n, d))
    ensures NodeOk(n')
  {
    forall u ensures PassAt(n', u) {
      assert PassAt(n, u);
    }
    forall u, v ensures PairAt(n', u, v) {
      assert PairAt(n, u, v);
    }
    forall e ensures LedgerAt(n', e) {
      assert LedgerAt(n, e);
      assert Holders(n', e) == Holders(n, e);
    }
  }

  lemma RefuseMove(n: Node, m: Move)
    requires NodeOk(n) && MoveEnabled(n, m) && Acquires(m.step) && !Grants(n, m)
    ensures NodeOk(MoveNext(n, m))
  {
    ReachableNext(n.sys, m.step);
    assert LedgerAt(n, m.destination);
    OwnHolding(n.sys, m.step.task, m.step.worker);
    StepOnlyMoves(n, m);
    AcquireHeld(LedgerOf(n, m.destination), m.maxConcurrency, m.rate, m.clock);
    SameNode(n, MoveNext(n, m), m.destination);
  }

  lemma LeavePasses(n: Node, n': Node, t: nat)
    requires NodeOk(n) && OnlyMoves(n, n', t) && !Holding(n'.sys, t) && t in n.passes && n'.passes == n.passes - {t}
    requires var d := n.passes[t].destination;
             && (forall e | e != d :: LedgerOf(n', e) == LedgerOf(n, e))
             && L.Held(LedgerOf(n', d)) == L.Held(LedgerOf(n, d)) - {n.passes[t].sequence}
    ensures forall u {:trigger PassAt(n', u)} :: PassAt(n', u)
    ensures forall u, v {:trigger PairAt(n', u, v)} :: PairAt(n', u, v)
  {
    forall u ensures PassAt(n', u) {
      assert PassAt(n, u) && PairAt(n, t, u);
    }
    forall u, v ensures PairAt(n', u, v) {
      assert PairAt(n, u, v);
    }
  }

  lemma LeaveLedgers(n: Node, n': Node, t: nat)
    requires NodeOk(n) && t in n.passes && n'.passes == n.passes - {t}
    requires var d := n.passes[t].destination;
             && (forall e | e != d :: LedgerOf(n', e) == LedgerOf(n, e))
             && L.LedgerOk(LedgerOf(n', d)) && Within(LedgerOf(n', d))
             && L.Held(LedgerOf(n', d)) == L.Held(LedgerOf(n, d)) - {n.passes[t].sequence}
    ensures forall e {:trigger LedgerAt(n', e)} :: LedgerAt(n', e)
  {
    assert PassAt(n, t);
    OneLess(L.Held(LedgerOf(n, n.passes[t].destination)), n.passes[t].sequence);
    forall e ensures LedgerAt(n', e) {
      assert LedgerAt(n, e);
      HoldersLeave(n, n', t, e);
    }
  }

  lemma LeaveMove(n: Node, m: Move)
    requires NodeOk(n) && MoveEnabled(n, m) && !Acquires(m.step) && Leaves(n, m)
    ensures NodeOk(MoveNext(n, m))
  {
    var t := m.step.task;
    ReachableNext(n.sys, m.step);
    assert LedgerAt(n, n.passes[t].destination) && PassAt(n, t);
    ReturnHeld(LedgerOf(n, n.passes[t].destination), n.passes[t].sequence, !n.sys.tasks[t].phase.Permitted?);
    StepOnlyMoves(n, m);
    LeavePasses(n, MoveNext(n, m), t);
    LeaveLedgers(n, MoveNext(n, m), t);
  }

  lemma QuietMove(n: Node, m: Move)
    requires NodeOk(n) && MoveEnabled(n, m) && !Acquires(m.step) && !Leaves(n, m)
    ensures NodeOk(MoveNext(n, m))
  {
    var n' := MoveNext(n, m);
    ReachableNext(n.sys, m.step);
    forall u ensures Holding(n'.sys, u) <==> Holding(n.sys, u) {
      assert PassAt(n, u);
      if Own(m.step, u) {
        OwnHolding(n.sys, u, m.step.worker);
      } else {
        OthersHolding(n.sys, m.step, u);
      }
    }
    assert LedgerAt(n, m.destination);
    SameNode(n, n', m.destination);
  }

  lemma StartOk(cfg: Config, start: Time)
    requires ValidConfig(cfg)
    ensures NodeOk(Start(cfg, start))
  {
    ReachesInit(cfg, start, false);
    forall d ensures LedgerAt(Start(cfg, start), d) {
      assert L.Held(L.Empty()) == {} && Holders(Start(cfg, start), d) == {};
    }
  }

  lemma MoveKeeps(n: Node, m: Move)
    requires NodeOk(n) && MoveEnabled(n, m)
    ensures NodeOk(MoveNext(n, m))
  {
    if !Acquires(m.step) {
      if Leaves(n, m) {
        LeaveMove(n, m);
      } else {
        QuietMove(n, m);
      }
    } else if Grants(n, m) {
      GrantMove(n, m);
    } else {
      RefuseMove(n, m);
    }
  }

  lemma {:induction false} MovesKeep(n: Node, moves: seq<Move>)
    requires NodeOk(n) && ValidMoves(n, moves)
    ensures NodeOk(After(n, moves))
    decreases |moves|
  {
    if moves == [] {
    } else {
      MoveKeeps(n, moves[0]);
      MovesKeep(MoveNext(n, moves[0]), moves[1..]);
    }
  }

  lemma NoneHeld(g: L.Ledger)
    requires L.LedgerOk(g) && g.limit.None?
    ensures L.Held(g) == {}
  {
    assert forall k | k in L.Held(g) :: L.EntryAt(g, k);
  }

  // ----- Permits are for the destination of the delivery

  predicate DestinationAt(n: Node, t: nat) {
    t in n.passes && t in n.sys.tasks && n.sys.tasks[t].signal.id in n.sys.db ==>
      n.sys.db[n.sys.tasks[t].signal.id].row.request.destination == n.passes[t].destination
  }

  lemma SignalKept(s: System, step: Step, t: nat)
    requires Enabled(s, step) && t in s.tasks && t in Next(s, step).tasks
    ensures Next(s, step).tasks[t].signal == s.tasks[t].signal
  {
    if step.Worker? {
      HandlerTasks(s, step.task, step.worker, if step.worker.Deliver? then step.worker.signal else s.tasks[step.task].signal);
    } else {
      OtherParty(s, step);
    }
  }

  lemma DestinationStep(n: Node, m: Move, t: nat)
    requires NodeOk(n) && MoveEnabled(n, m) && DestinationAt(n, t)
    ensures DestinationAt(MoveNext(n, m), t)
  {
    var n' := MoveNext(n, m);
    assert PassAt(n, t);
    if t in n'.passes && t in n'.sys.tasks && t in n.sys.tasks {
      ReachableInv(n.sys);
      StepKeeps(n.sys, m.step);
      SignalKept(n.sys, m.step, t);
      assert TaskAt(n.sys, t) && IdAdvances(n.sys, n'.sys, n.sys.tasks[t].signal.id);
    }
  }

  lemma {:induction false} MovesKeepDestination(n: Node, moves: seq<Move>, t: nat)
    requires NodeOk(n) && ValidMoves(n, moves) && DestinationAt(n, t)
    ensures DestinationAt(After(n, moves), t)
    decreases |moves|
  {
    if moves == [] {
    } else {
      DestinationStep(n, moves[0], t);
      MoveKeeps(n, moves[0]);
      MovesKeepDestination(MoveNext(n, moves[0]), moves[1..], t);
    }
  }

  // ----- The theorems

  /** Under every interleaving the handlers that are past `tryAcquire` and not through are those with
      a permit; for each destination they are as many as the limiter counts; and if no limit above
      `most` was ever set for it, they are at most `most`. */
  lemma HandlersBounded(cfg: Config, start: Time, moves: seq<Move>, d: string, most: int)
    requires ValidConfig(cfg) && ValidMoves(Start(cfg, start), moves)
    ensures var n := After(Start(cfg, start), moves);
            && Reachable(n.sys)
            && (forall t {:trigger Holding(n.sys, t)} :: Holding(n.sys, t) <==> t in n.passes)
            && (forall t {:trigger DestinationAt(n, t)} :: DestinationAt(n, t))
            && (LedgerOf(n, d).limit.Some? ==> |Holders(n, d)| == LedgerOf(n, d).limit.value.active)
            && (LedgerOf(n, d).limit.None? ==> Holders(n, d) == {})
            && ((forall m | m in LedgerOf(n, d).seen :: 0 <= m <= most) && 0 <= most ==> |Holders(n, d)| <= most)
  {
    StartOk(cfg, start);
    MovesKeep(Start(cfg, start), moves);
    var n := After(Start(cfg, start), moves);
    assert LedgerAt(n, d);
    forall t ensures Holding(n.sys, t) <==> t in n.passes {
      assert PassAt(n, t);
    }
    forall t ensures DestinationAt(n, t) {
      MovesKeepDestination(Start(cfg, start), moves, t);
    }
    if LedgerOf(n, d).limit.None? {
      NoneHeld(LedgerOf(n, d));
    }
  }

  /** And right after a grant they are within every limit that was ever set for the destination. */
  lemma GrantWithinLimits(cfg: Config, start: Time, moves: seq<Move>, m: Move, limit: int)
    requires ValidConfig(cfg) && ValidMoves(Start(cfg, start), moves)
    requires var n := After(Start(cfg, start), moves);
             && MoveEnabled(n, m) && Acquires(m.step) && Grants(n, m)
             && limit in LedgerOf(MoveNext(n, m), m.destination).seen
    ensures |Holders(MoveNext(After(Start(cfg, start), moves), m), m.destination)| <= limit
  {
    StartOk(cfg, start);
    MovesKeep(Start(cfg, start), moves);
    GrantMove(After(Start(cfg, start), moves), m);
  }
}
