/**
  * The plain model of the limits: a bucket for every limit and every holder, full from the start, refilled
  * all the time and never forgotten. The buckets that are made on first sight, refilled when touched and
  * swept away when full give the same answers.
  */
module LimitsEager {
  import opened Types
  import opened Buckets
  import opened LimitsSpec
  import opened LimitsChecks
  import opened LimitsRuns

  datatype Eager = Eager(classes: map<Key, nat>, rules: seq<Rule>, level: Slot -> real, clock: Moment)

  /** The rules of the plain model, as a table without buckets. */
  function Bare(e: Eager): Table {
    Table(e.classes, e.rules, map[])
  }

  function LevelAt(e: Eager, k: Slot, now: Moment): real {
    match RateOf(e.rules, k.rule)
    case Some(rate) =>
      if Limiting(rate) then Level(e.level(k), now - e.clock, PerSecond(rate), rate.burst as real) else e.level(k)
    case None => e.level(k)
  }

  /** Time passes: every bucket fills. */
  ghost function Flow(e: Eager, now: Moment): Eager {
    e.(level := k => LevelAt(e, k, now), clock := now)
  }

  /** The first matching limit with too little left. */
  function FirstLacking(level: Slot -> real, draws: seq<Draw>, bytes: nat): Option<nat> {
    if draws == [] then None
    else if level(draws[0].slot) < Cost(draws[0].rule.id.unit, bytes) then Some(draws[0].rule.id.scope)
    else FirstLacking(level, draws[1..], bytes)
  }

  function PlainVerdict(e: Eager, r: Request, bytes: nat): Verdict {
    var class_ := ClassOf(Bare(e), r.group);
    if class_ == CLASS_BLOCKED then Limited(LIMITED_BLOCKED)
    else
      match FirstLacking(e.level, Matching(e.rules, class_, r), bytes)
      case Some(scope) => Limited(scope)
      case None => Admitted
  }

  ghost function PlainCheck(e: Eager, r: Request, bytes: nat): Eager {
    if PlainVerdict(e, r, bytes).Admitted? then e.(level := k => e.level(k) - Due(Bare(e), r, bytes, k)) else e
  }

  /** A new limit starts with full buckets; a changed one keeps what is in them, up to its burst. */
  ghost function PlainSetLimit(e: Eager, id: RuleId, rate: Rate): Eager {
    var known := RateOf(e.rules, id).Some?;
    e.(rules := SetLimit(Bare(e), id, rate).rules,
       level := (k: Slot) => if k.rule != id then e.level(k)
                     else if known then Min(e.level(k), rate.burst as real) else rate.burst as real)
  }

  ghost function PlainApply(e: Eager, op: Op): Eager {
    match op
    case Classify(group, class_) => e.(classes := SetClass(Bare(e), group, class_).classes)
    case Limit(id, rate) => PlainSetLimit(e, id, rate)
    case Ask(r, bytes, now) => PlainCheck(Flow(e, now), r, bytes)
    case Clean(now) => Flow(e, now)
  }

  // -------- the two see the same levels

  ghost predicate Agree(t: Table, e: Eager) {
    && t.classes == e.classes && t.rules == e.rules
    && forall k: Slot, rate: Rate :: RateOf(t.rules, k.rule) == Some(rate) && Limiting(rate) ==>
         View(t.buckets, k, rate, e.clock) == e.level(k)
  }

  lemma FlowAgrees(t: Table, e: Eager, now: Moment)
    requires Agree(t, e) && Kept(t, e.clock) && e.clock <= now
    ensures Agree(t, Flow(e, now))
  {
    forall k: Slot, rate: Rate | RateOf(t.rules, k.rule) == Some(rate) && Limiting(rate)
      ensures View(t.buckets, k, rate, now) == LevelAt(e, k, now)
    {
      ViewGrows(t.buckets, k, rate, e.clock, now);
    }
  }

  lemma {:induction false} FirstLackingIs(level: Slot -> real, draws: seq<Draw>, bytes: nat, i: nat)
    requires i <= |draws|
    requires forall j :: 0 <= j < i ==> level(draws[j].slot) >= Cost(draws[j].rule.id.unit, bytes)
    requires i < |draws| ==> level(draws[i].slot) < Cost(draws[i].rule.id.unit, bytes)
    ensures FirstLacking(level, draws, bytes) == if i < |draws| then Some(draws[i].rule.id.scope) else None
  {
    if i > 0 {
      FirstLackingIs(level, draws[1..], bytes, i - 1);
    }
  }

  lemma DecisionsAgree(buckets: map<Slot, Bucket>, level: Slot -> real, draws: seq<Draw>, bytes: nat, now: Moment,
                       refused: Option<nat>)
    requires AllLimiting(draws) && Decided(buckets, draws, bytes, now, refused)
    requires forall i :: 0 <= i < |draws| ==>
               View(buckets, draws[i].slot, draws[i].rule.rate, now) == level(draws[i].slot)
    ensures FirstLacking(level, draws, bytes) == refused
  {
    match refused
    case None => FirstLackingIs(level, draws, bytes, |draws|);
    case Some(scope) =>
      var i :| 0 <= i < |draws| && Lacks(buckets, draws[i], bytes, now) && draws[i].rule.id.scope == scope
               && forall j :: 0 <= j < i ==> !Lacks(buckets, draws[j], bytes, now);
      FirstLackingIs(level, draws, bytes, i);
  }

  lemma DrawsAgree(t: Table, e: Eager, class_: nat, r: Request, i: nat)
    requires Agree(t, e) && Kept(t, e.clock) && i < |Matching(t.rules, class_, r)|
    ensures var d := Matching(t.rules, class_, r)[i];
            Limiting(d.rule.rate) && View(t.buckets, d.slot, d.rule.rate, e.clock) == e.level(d.slot)
  {
    var d := Matching(t.rules, class_, r)[i];
    MatchingLimits(t.rules, class_, r);
    MatchingIsOfTheRules(t.rules, class_, r);
    assert IsDrawOf(d, t.rules, class_, r);
    var j :| 0 <= j < |t.rules| && t.rules[j] == d.rule;
    RateIsTheRules(t.rules, j);
  }

  lemma VerdictsAgree(t: Table, e: Eager, r: Request, bytes: nat)
    requires Agree(t, e) && Kept(t, e.clock)
    ensures Check(t, r, bytes, e.clock).verdict == PlainVerdict(e, r, bytes)
  {
    var class_ := ClassOf(t, r.group);
    VerdictIsTheLevels(t, r, bytes, e.clock);
    if class_ != CLASS_BLOCKED {
      var draws := Matching(t.rules, class_, r);
      forall i | 0 <= i < |draws|
        ensures View(t.buckets, draws[i].slot, draws[i].rule.rate, e.clock) == e.level(draws[i].slot)
      {
        DrawsAgree(t, e, class_, r, i);
      }
      var verdict := Check(t, r, bytes, e.clock).verdict;
      DecisionsAgree(t.buckets, e.level, draws, bytes, e.clock,
                     if verdict.Admitted? then None else Some(verdict.reason));
    }
  }

  lemma CheckAgrees(t: Table, e: Eager, r: Request, bytes: nat)
    requires Agree(t, e) && Kept(t, e.clock)
    ensures Agree(Check(t, r, bytes, e.clock).table, PlainCheck(e, r, bytes))
  {
    VerdictsAgree(t, e, r, bytes);
    var t' := Check(t, r, bytes, e.clock).table;
    CheckKeepsRules(t, r, bytes, e.clock);
    forall k: Slot, rate: Rate | RateOf(t.rules, k.rule) == Some(rate) && Limiting(rate)
      ensures View(t'.buckets, k, rate, e.clock) == PlainCheck(e, r, bytes).level(k)
    {
      if Check(t, r, bytes, e.clock).verdict.Admitted? {
        AdmissionTakesItsCost(t, r, bytes, e.clock, k, rate);
        assert Due(t, r, bytes, k) == Due(Bare(e), r, bytes, k);
      } else {
        RefusalChangesNothing(t, r, bytes, e.clock, k, rate, e.clock);
      }
    }
  }

  lemma CheckKeepsRules(t: Table, r: Request, bytes: nat, now: Moment)
    requires LimitingRules(t.rules)
    ensures Check(t, r, bytes, now).table.rules == t.rules && Check(t, r, bytes, now).table.classes == t.classes
  {
  }

  lemma SweepAgrees(t: Table, e: Eager)
    requires Agree(t, e) && Kept(t, e.clock)
    ensures Agree(Sweep(t, e.clock), e)
  {
    forall k: Slot, rate: Rate | RateOf(t.rules, k.rule) == Some(rate) && Limiting(rate)
      ensures View(Sweep(t, e.clock).buckets, k, rate, e.clock) == e.level(k)
    {
      SweepKeepsViews(t, e.clock, k, rate, e.clock);
    }
  }

  // -------- changes of limits

  /** A limit may be new, removed, or changed at the same speed to no higher a burst. */
  ghost predicate Steady(rules: seq<Rule>, op: Op) {
    op.Limit? && Limiting(op.rate) && RateOf(rules, op.id).Some? ==>
      var inForce := RateOf(rules, op.id).value;
      Limiting(inForce) && PerSecond(inForce) == PerSecond(op.rate) && op.rate.burst <= inForce.burst
  }

  lemma SetLimitAgrees(t: Table, e: Eager, id: RuleId, rate: Rate)
    requires Agree(t, e) && Kept(t, e.clock) && Steady(t.rules, Limit(id, rate))
    ensures Agree(SetLimit(t, id, rate), PlainSetLimit(e, id, rate))
  {
    var t', e' := SetLimit(t, id, rate), PlainSetLimit(e, id, rate);
    forall k: Slot, now: Rate | RateOf(t'.rules, k.rule) == Some(now) && Limiting(now)
      ensures View(t'.buckets, k, now, e.clock) == e'.level(k)
    {
      RateAfterSetLimit(t, id, rate, k.rule);
      if k.rule == id {
        SlotAfterSetLimit(t, e, id, rate, k);
      }
    }
  }

  lemma SlotAfterSetLimit(t: Table, e: Eager, id: RuleId, rate: Rate, k: Slot)
    requires Agree(t, e) && Kept(t, e.clock) && Steady(t.rules, Limit(id, rate)) && Limiting(rate) && k.rule == id
    ensures View(SetLimit(t, id, rate).buckets, k, rate, e.clock) == PlainSetLimit(e, id, rate).level(k)
  {
    if RateOf(t.rules, id).Some? {
      CutToTheBurst(t.buckets, k, RateOf(t.rules, id).value, rate, e.clock);
    }
  }

  lemma CutToTheBurst(buckets: map<Slot, Bucket>, k: Slot, before: Rate, after: Rate, at: Moment)
    requires Limiting(before) && Limiting(after) && PerSecond(before) == PerSecond(after) && after.burst <= before.burst
    ensures View(buckets, k, after, at) == Min(View(buckets, k, before, at), after.burst as real)
  {
  }

  lemma ApplyAgrees(t: Table, e: Eager, op: Op)
    requires Agree(t, e) && Kept(t, e.clock) && e.clock <= ClockAfter(op, e.clock) && Steady(t.rules, op)
    ensures Agree(Apply(t, op), PlainApply(e, op)) && PlainApply(e, op).clock == ClockAfter(op, e.clock)
  {
    match op
    case Classify(_, _) =>
    case Limit(id, rate) => SetLimitAgrees(t, e, id, rate);
    case Ask(r, bytes, now) =>
      FlowAgrees(t, e, now);
      CheckAgrees(t, Flow(e, now), r, bytes);
    case Clean(now) =>
      FlowAgrees(t, e, now);
      SweepAgrees(t, Flow(e, now));
  }

  // -------- every run

  /** The answers to the requests of a run, in order. */
  ghost function Answers(t: Table, ops: seq<Op>, clock: Moment): seq<Verdict>
    requires Kept(t, clock) && InOrder(ops, clock)
    decreases |ops|
  {
    if ops == [] then []
    else
      ApplyKeeps(t, ops[0], clock);
      (if ops[0].Ask? then [Check(t, ops[0].r, ops[0].bytes, ops[0].now).verdict] else [])
      + Answers(Apply(t, ops[0]), ops[1..], ClockAfter(ops[0], clock))
  }

  ghost function PlainAnswers(e: Eager, ops: seq<Op>): seq<Verdict>
    decreases |ops|
  {
    if ops == [] then []
    else
      (if ops[0].Ask? then [PlainVerdict(Flow(e, ops[0].now), ops[0].r, ops[0].bytes)] else [])
      + PlainAnswers(PlainApply(e, ops[0]), ops[1..])
  }

  ghost predicate AllSteady(t: Table, ops: seq<Op>, clock: Moment)
    requires Kept(t, clock) && InOrder(ops, clock)
    decreases |ops|
  {
    ops == [] ||
    (ApplyKeeps(t, ops[0], clock);
     Steady(t.rules, ops[0]) && AllSteady(Apply(t, ops[0]), ops[1..], ClockAfter(ops[0], clock)))
  }

  lemma FirstAnswersAgree(t: Table, e: Eager, op: Op)
    requires Agree(t, e) && Kept(t, e.clock) && e.clock <= ClockAfter(op, e.clock) && op.Ask?
    ensures Check(t, op.r, op.bytes, op.now).verdict == PlainVerdict(Flow(e, op.now), op.r, op.bytes)
  {
    FlowAgrees(t, e, op.now);
    VerdictsAgree(t, Flow(e, op.now), op.r, op.bytes);
  }

  lemma {:induction false} RunsAgree(t: Table, e: Eager, ops: seq<Op>)
    requires Agree(t, e) && Kept(t, e.clock) && InOrder(ops, e.clock) && AllSteady(t, ops, e.clock)
    ensures Answers(t, ops, e.clock) == PlainAnswers(e, ops)
    decreases |ops|
  {
    if ops != [] {
      ApplyKeeps(t, ops[0], e.clock);
      ApplyAgrees(t, e, ops[0]);
      RunsAgree(Apply(t, ops[0]), PlainApply(e, ops[0]), ops[1..]);
      if ops[0].Ask? {
        FirstAnswersAgree(t, e, ops[0]);
      }
    }
  }

  /**
    * From the start, over every run of operations at times in order, every request gets the answer of the plain
    * model, as long as no limit is changed to another speed or a higher burst while it is in force.
    */
  lemma LazyIsEager(ops: seq<Op>, clock: Moment)
    requires InOrder(ops, clock) && AllSteady(EMPTY, ops, clock)
    ensures Answers(EMPTY, ops, clock) == PlainAnswers(Eager(map[], [], k => 0.0, clock), ops)
  {
    RunsAgree(EMPTY, Eager(map[], [], k => 0.0, clock), ops);
  }
}
