/** Following a run step by step. */
module Runs {
  import opened Protocol

  ghost predicate Leads(s: System, steps: seq<Step>, s': System) {
    ValidRun(s, steps) && Run(s, steps) == s'
  }

  lemma LeadsNowhere(s: System)
    ensures Leads(s, [], s)
  {
  }

  lemma LeadsVia(s: System, step: Step, rest: seq<Step>, s': System)
    requires Enabled(s, step) && Leads(Next(s, step), rest, s')
    ensures Leads(s, [step] + rest, s')
  {
    assert ([step] + rest)[1..] == rest;
  }

  lemma LeadsTail(s: System, a: seq<Step>, m: System)
    requires a != [] && Leads(s, a, m)
    ensures Enabled(s, a[0]) && Leads(Next(s, a[0]), a[1..], m)
  {
  }

  lemma LeadsTwo(s: System, a: Step, m: System, b: Step, s': System)
    requires Enabled(s, a) && m == Next(s, a) && Enabled(m, b) && s' == Next(m, b)
    ensures Leads(s, [a, b], s')
  {
    LeadsNowhere(s');
    LeadsVia(m, b, [], s');
    LeadsVia(s, a, [b] + [], s');
    assert [a, b] == [a] + ([b] + []);
  }

  lemma {:induction false} LeadsOn(s: System, a: seq<Step>, m: System, b: seq<Step>, s': System)
    requires Leads(s, a, m) && Leads(m, b, s')
    ensures Leads(s, a + b, s')
    decreases |a|
  {
    if a == [] {
      assert a + b == b;
    } else {
      LeadsTail(s, a, m);
      LeadsOn(Next(s, a[0]), a[1..], m, b, s');
      LeadsVia(s, a[0], a[1..] + b, s');
      assert a + b == [a[0]] + (a[1..] + b);
    }
  }

  // ----- Reachability, with and without overlapping statements

  /** No other commit falls between the start and the end of a maintenance statement. */
  predicate Serial(s: System, step: Step) {
    step.Maintenance? ==>
      match step.maintenance
      case ScheduleRetries(_, statement, _) => s.now <= statement
      case RecoverLeases(_, statement, _, _) => s.now <= statement
      case ReconcileSignals(_, statement, _) => s.now <= statement
      case _ => true
  }

  predicate SerialRun(s: System, steps: seq<Step>)
    requires ValidRun(s, steps)
    decreases |steps|
  {
    steps != [] ==> Serial(s, steps[0]) && SerialRun(Next(s, steps[0]), steps[1..])
  }

  /** Some run leads to `s`, and one without overlapping statements if `serial`. */
  ghost predicate Reaches(s: System, serial: bool) {
    exists cfg, start, steps: seq<Step> ::
      && ValidConfig(cfg)
      && ValidRun(Init(cfg, start), steps)
      && (serial ==> SerialRun(Init(cfg, start), steps))
      && s == Run(Init(cfg, start), steps)
  }

  lemma ReachesReachable(s: System, serial: bool)
    requires Reaches(s, serial)
    ensures Reachable(s)
  {
  }

  lemma {:induction false} SerialOn(s: System, a: seq<Step>, m: System, step: Step)
    requires Leads(s, a, m) && SerialRun(s, a) && Enabled(m, step) && Serial(m, step)
    ensures ValidRun(s, a + [step]) && SerialRun(s, a + [step])
    decreases |a|
  {
    if a == [] {
      assert a + [step] == [step];
    } else {
      assert (a + [step])[1..] == a[1..] + [step];
      SerialOn(Next(s, a[0]), a[1..], m, step);
    }
  }

  lemma ReachesNext(s: System, step: Step, serial: bool)
    requires Reaches(s, serial) && Enabled(s, step) && (serial ==> Serial(s, step))
    ensures Reaches(Next(s, step), serial)
  {
    var cfg, start, before: seq<Step> :|
      && ValidConfig(cfg)
      && ValidRun(Init(cfg, start), before)
      && (serial ==> SerialRun(Init(cfg, start), before))
      && s == Run(Init(cfg, start), before);
    var s' := Next(s, step);
    LeadsNowhere(s');
    LeadsVia(s, step, [], s');
    assert [step] + [] == [step];
    LeadsOn(Init(cfg, start), before, s, [step], s');
    if serial {
      SerialOn(Init(cfg, start), before, s, step);
    }
  }

  lemma ReachesInit(cfg: Config, start: int, serial: bool)
    requires ValidConfig(cfg)
    ensures Reaches(Init(cfg, start), serial)
  {
    LeadsNowhere(Init(cfg, start));
    assert SerialRun(Init(cfg, start), []);
  }

  lemma ReachableNext(s: System, step: Step)
    requires Reachable(s) && Enabled(s, step)
    ensures Reachable(Next(s, step))
  {
    assert Reaches(s, false);
    ReachesNext(s, step, false);
  }
}
