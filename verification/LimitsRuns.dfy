/** Any run of operations on the limits: what is kept throughout, and how much a bucket lets through. */
module LimitsRuns {
  import opened Types
  import opened Multiaddrs
  import opened Buckets
  import opened LimitsSpec
  import opened LimitsChecks

  datatype Op =
    | Classify(group: Key, class_: nat)
    | Limit(id: RuleId, rate: Rate)
    | Ask(r: Request, bytes: nat, now: Moment)
    | Clean(now: Moment)

  /** The clock after the operation; only some operations read it. */
  function ClockAfter(op: Op, clock: Moment): Moment {
    match op
    case Ask(_, _, now) => now
    case Clean(now) => now
    case _ => clock
  }

  function Apply(t: Table, op: Op): Table
    requires LimitingRules(t.rules)
  {
    match op
    case Classify(group, class_) => SetClass(t, group, class_)
    case Limit(id, rate) => SetLimit(t, id, rate)
    case Ask(r, bytes, now) => Check(t, r, bytes, now).table
    case Clean(now) => Sweep(t, now)
  }

  // -------- rules

  lemma {:induction false} WithoutOthers(rules: seq<Rule>, id: RuleId)
    ensures forall i :: 0 <= i < |Without(rules, id)| ==>
              Without(rules, id)[i] in rules && Without(rules, id)[i].id != id
    ensures OneRulePerId(rules) ==> OneRulePerId(Without(rules, id))
    ensures LimitingRules(rules) ==> LimitingRules(Without(rules, id))
  {
    if rules != [] {
      var init := rules[..|rules| - 1];
      WithoutOthers(init, id);
      assert rules == init + [rules[|rules| - 1]];
      if OneRulePerId(rules) {
        assert OneRulePerId(init);
        forall i | 0 <= i < |Without(init, id)|
          ensures Without(init, id)[i].id != rules[|rules| - 1].id
        {
          var j :| 0 <= j < |init| && init[j] == Without(init, id)[i];
          assert rules[j].id != rules[|rules| - 1].id;
        }
      }
    }
  }

  lemma {:induction false} RateOfAppended(rules: seq<Rule>, rule: Rule, id: RuleId)
    ensures RateOf(rules + [rule], id)
            == if RateOf(rules, id).Some? then RateOf(rules, id)
               else if rule.id == id then Some(rule.rate) else None
  {
    if rules == [] {
      assert rules + [rule] == [rule];
    } else {
      assert (rules + [rule])[1..] == rules[1..] + [rule];
      RateOfAppended(rules[1..], rule, id);
    }
  }

  lemma {:induction false} RateOfWithout(rules: seq<Rule>, id: RuleId, other: RuleId)
    ensures RateOf(Without(rules, id), other) == if other == id then None else RateOf(rules, other)
  {
    if rules != [] {
      var init, last := rules[..|rules| - 1], rules[|rules| - 1];
      assert rules == init + [last];
      RateOfWithout(init, id, other);
      RateOfAppended(init, last, other);
      RateOfAppended(Without(init, id), last, other);
      assert Without(init, id) + [] == Without(init, id);
    }
  }

  /** What the rules say after a limit was set: the new rate for its id, and no other change. */
  lemma RateAfterSetLimit(t: Table, id: RuleId, rate: Rate, other: RuleId)
    ensures RateOf(SetLimit(t, id, rate).rules, other)
            == if other != id then RateOf(t.rules, other) else if Limiting(rate) then Some(rate) else None
  {
    RateOfWithout(t.rules, id, other);
    RateOfAppended(Without(t.rules, id), Rule(id, rate), other);
  }

  // -------- what every operation keeps

  lemma SetLimitKeeps(t: Table, clock: Moment, id: RuleId, rate: Rate)
    requires Kept(t, clock)
    ensures Kept(SetLimit(t, id, rate), clock)
  {
    var t' := SetLimit(t, id, rate);
    WithoutOthers(t.rules, id);
    forall k | k in t'.buckets
      ensures RateOf(t'.rules, k.rule).Some?
    {
      RateAfterSetLimit(t, id, rate, k.rule);
    }
  }

  lemma {:induction false} TouchedAreRuled(buckets: map<Slot, Bucket>, draws: seq<Draw>, bytes: nat, now: Moment)
    requires AllLimiting(draws)
    ensures forall k :: k in Touch(buckets, draws, bytes, now).buckets ==> k in buckets || Drawn(draws, k)
  {
    if draws != [] {
      var init := draws[..|draws| - 1];
      TouchedAreRuled(buckets, init, bytes, now);
      forall k | k in Touch(buckets, draws, bytes, now).buckets && k !in buckets
        ensures Drawn(draws, k)
      {
        if Drawn(init, k) {
          var i :| 0 <= i < |init| && init[i].slot == k;
          assert draws[i].slot == k;
        } else {
          assert draws[|draws| - 1].slot == k;
        }
      }
    }
  }

  lemma {:induction false} TakenAreThere(buckets: map<Slot, Bucket>, draws: seq<Draw>, bytes: nat)
    ensures Take(buckets, draws, bytes).Keys == buckets.Keys
  {
    if draws != [] {
      TakenAreThere(buckets, draws[..|draws| - 1], bytes);
    }
  }

  lemma DrawnAreRuled(rules: seq<Rule>, class_: nat, r: Request, k: Slot)
    requires Drawn(Matching(rules, class_, r), k)
    ensures RateOf(rules, k.rule).Some?
  {
    var draws := Matching(rules, class_, r);
    MatchingIsOfTheRules(rules, class_, r);
    var i :| 0 <= i < |draws| && draws[i].slot == k;
    assert IsDrawOf(draws[i], rules, class_, r);
    var j :| 0 <= j < |rules| && rules[j] == draws[i].rule;
    assert rules[j].id == k.rule;
    RateHasItsRule(rules, k.rule);
  }

  lemma TouchedTableKept(t: Table, r: Request, bytes: nat, now: Moment)
    requires Kept(t, now)
    ensures var draws := Matching(t.rules, ClassOf(t, r.group), r);
            AllLimiting(draws) && BucketsKept(t.(buckets := Touch(t.buckets, draws, bytes, now).buckets), now)
  {
    var draws := Matching(t.rules, ClassOf(t, r.group), r);
    MatchingLimits(t.rules, ClassOf(t, r.group), r);
    TouchedIsSane(t, draws, bytes, now);
    TouchedAreRuled(t.buckets, draws, bytes, now);
    forall k | k in Touch(t.buckets, draws, bytes, now).buckets
      ensures RateOf(t.rules, k.rule).Some?
    {
      if k !in t.buckets {
        DrawnAreRuled(t.rules, ClassOf(t, r.group), r, k);
      }
    }
  }

  lemma TakenTableKept(t: Table, r: Request, bytes: nat, now: Moment)
    requires Kept(t, now) && Check(t, r, bytes, now).verdict.Admitted?
    ensures Kept(TakenTable(t, r, bytes, now), now)
  {
    var draws := Matching(t.rules, ClassOf(t, r.group), r);
    TouchedTableKept(t, r, bytes, now);
    TakenTableFacts(t, r, bytes, now);
    TakenAreThere(Touch(t.buckets, draws, bytes, now).buckets, draws, bytes);
  }

  lemma SweepKeeps(t: Table, clock: Moment, now: Moment)
    requires Kept(t, clock) && clock <= now
    ensures Kept(Sweep(t, now), now)
  {
    SweepIsSane(t, now);
  }

  lemma CheckKeeps(t: Table, r: Request, bytes: nat, now: Moment)
    requires Kept(t, now)
    ensures Kept(Check(t, r, bytes, now).table, now)
  {
    if Check(t, r, bytes, now).verdict.Admitted? {
      AdmittedTable(t, r, bytes, now);
      TakenTableKept(t, r, bytes, now);
      SweepKeeps(TakenTable(t, r, bytes, now), now, now);
    } else {
      TouchedTableKept(t, r, bytes, now);
    }
  }

  /** Rule ids stay unique, balances are never negative, every bucket belongs to a rule: after every operation. */
  lemma ApplyKeeps(t: Table, op: Op, clock: Moment)
    requires Kept(t, clock) && clock <= ClockAfter(op, clock)
    ensures Kept(Apply(t, op), ClockAfter(op, clock))
  {
    match op
    case Classify(_, _) =>
    case Limit(id, rate) => SetLimitKeeps(t, clock, id, rate);
    case Ask(r, bytes, now) => CheckKeeps(t, r, bytes, now);
    case Clean(now) => SweepKeeps(t, clock, now);
  }

  // -------- runs

  ghost predicate InOrder(ops: seq<Op>, clock: Moment)
    decreases |ops|
  {
    ops == [] || (clock <= ClockAfter(ops[0], clock) && InOrder(ops[1..], ClockAfter(ops[0], clock)))
  }

  function ClockAtEnd(ops: seq<Op>, clock: Moment): Moment
    decreases |ops|
  {
    if ops == [] then clock else ClockAtEnd(ops[1..], ClockAfter(ops[0], clock))
  }

  ghost function After(t: Table, ops: seq<Op>, clock: Moment): Table
    requires Kept(t, clock) && InOrder(ops, clock)
    decreases |ops|
  {
    if ops == [] then t
    else
      ApplyKeeps(t, ops[0], clock);
      After(Apply(t, ops[0]), ops[1..], ClockAfter(ops[0], clock))
  }

  lemma {:induction false} RunKeeps(t: Table, ops: seq<Op>, clock: Moment)
    requires Kept(t, clock) && InOrder(ops, clock)
    ensures Kept(After(t, ops, clock), ClockAtEnd(ops, clock)) && clock <= ClockAtEnd(ops, clock)
    decreases |ops|
  {
    if ops != [] {
      ApplyKeeps(t, ops[0], clock);
      RunKeeps(Apply(t, ops[0]), ops[1..], ClockAfter(ops[0], clock));
    }
  }

  // -------- how much one bucket lets through

  /** What the operation took from the slot. */
  ghost function Taken(t: Table, op: Op, k: Slot): (c: real)
    requires LimitingRules(t.rules)
    ensures c >= 0.0
  {
    if op.Ask? && Check(t, op.r, op.bytes, op.now).verdict.Admitted? then Due(t, op.r, op.bytes, k) else 0.0
  }

  /** The total cost admitted against the slot over a run. */
  ghost function Spent(t: Table, ops: seq<Op>, clock: Moment, k: Slot): real
    requires Kept(t, clock) && InOrder(ops, clock)
    decreases |ops|
  {
    if ops == [] then 0.0
    else
      ApplyKeeps(t, ops[0], clock);
      Taken(t, ops[0], k) + Spent(Apply(t, ops[0]), ops[1..], ClockAfter(ops[0], clock), k)
  }

  /** Nobody sets this limit during the run. */
  ghost predicate LeftUnchanged(ops: seq<Op>, id: RuleId) {
    forall i :: 0 <= i < |ops| && ops[i].Limit? ==> ops[i].id != id
  }

  /** Waiting fills a bucket at its speed, and not over its burst. */
  lemma ViewGrows(buckets: map<Slot, Bucket>, k: Slot, rate: Rate, from: Moment, to: Moment)
    requires Limiting(rate) && Sane(buckets, from) && from <= to
    ensures View(buckets, k, rate, to)
            == Level(View(buckets, k, rate, from), to - from, PerSecond(rate), rate.burst as real)
    ensures View(buckets, k, rate, to) <= View(buckets, k, rate, from) + (to - from) * PerSecond(rate)
  {
    if k in buckets {
      RefillView(buckets[k], rate, from, to);
    } else {
      FullStaysFull(to - from, PerSecond(rate), rate.burst as real);
    }
    RefillBounds(View(buckets, k, rate, from), to - from, PerSecond(rate), rate.burst as real);
  }

  /** An operation takes from the slot what it admitted, and changes nothing else of what is seen there. */
  lemma ApplyView(t: Table, op: Op, clock: Moment, k: Slot, rate: Rate)
    requires Kept(t, clock) && clock <= ClockAfter(op, clock)
    requires RateOf(t.rules, k.rule) == Some(rate) && Limiting(rate) && (op.Limit? ==> op.id != k.rule)
    ensures RateOf(Apply(t, op).rules, k.rule) == Some(rate)
    ensures var now := ClockAfter(op, clock);
            View(Apply(t, op).buckets, k, rate, now) == View(t.buckets, k, rate, now) - Taken(t, op, k)
  {
    match op
    case Classify(_, _) =>
    case Limit(id, r) => RateAfterSetLimit(t, id, r, k.rule);
    case Ask(r, bytes, now) =>
      assert Kept(t, now);
      if Check(t, r, bytes, now).verdict.Admitted? {
        AdmissionTakesItsCost(t, r, bytes, now, k, rate);
      } else {
        RefusalChangesNothing(t, r, bytes, now, k, rate, now);
      }
    case Clean(now) => SweepKeepsViews(t, now, k, rate, now);
  }

  /** The slot is seen at no more than `level` when the clock reads `clock`. */
  ghost predicate AtMost(buckets: map<Slot, Bucket>, k: Slot, rate: Rate, clock: Moment, level: real)
    requires Limiting(rate)
  {
    forall at :: at == clock ==> 0.0 <= View(buckets, k, rate, at) <= level
  }

  lemma ViewGrowsNoFaster(buckets: map<Slot, Bucket>, k: Slot, rate: Rate, from: Moment, to: Moment, perSecond: real)
    requires Limiting(rate) && Sane(buckets, from) && from <= to && PerSecond(rate) <= perSecond
    ensures View(buckets, k, rate, to) <= View(buckets, k, rate, from) + (to - from) * perSecond
  {
    hide View, Level, PerSecond;
    ViewGrows(buckets, k, rate, from, to);
    Faster(to - from, PerSecond(rate), perSecond);
  }

  lemma Faster(d: real, p: real, q: real)
    requires d >= 0.0 && p <= q
    ensures d * p <= d * q
  {
  }

  lemma PaidWithinLevel(t: Table, op: Op, clock: Moment, now: Moment, k: Slot, rate: Rate, level: real, perSecond: real)
    requires Kept(t, clock) && clock <= now == ClockAfter(op, clock)
    requires RateOf(t.rules, k.rule) == Some(rate) && Limiting(rate) && (op.Limit? ==> op.id != k.rule)
    requires AtMost(t.buckets, k, rate, clock, level) && PerSecond(rate) <= perSecond
    ensures Taken(t, op, k) + View(Apply(t, op).buckets, k, rate, now) <= level + (now - clock) * perSecond
  {
    ApplyView(t, op, clock, k, rate);
    ViewGrowsNoFaster(t.buckets, k, rate, clock, now, perSecond);
  }

  lemma LevelAfter(t: Table, op: Op, clock: Moment, now: Moment, k: Slot, rate: Rate, left: real)
    requires Kept(t, clock) && clock <= now == ClockAfter(op, clock) && Limiting(rate)
    requires left == View(Apply(t, op).buckets, k, rate, now)
    ensures AtMost(Apply(t, op).buckets, k, rate, now, left) && left >= 0.0
  {
    ApplyKeeps(t, op, clock);
    ViewBounds(Apply(t, op).buckets, k, rate, now);
  }

  /** What one operation takes is paid out of the level and what flowed in since the clock was read. */
  lemma OneOpIsPaid(t: Table, op: Op, clock: Moment, now: Moment, k: Slot, rate: Rate, level: real, perSecond: real)
    returns (left: real)
    requires Kept(t, clock) && clock <= now == ClockAfter(op, clock)
    requires RateOf(t.rules, k.rule) == Some(rate) && Limiting(rate) && (op.Limit? ==> op.id != k.rule)
    requires AtMost(t.buckets, k, rate, clock, level) && PerSecond(rate) <= perSecond
    ensures AtMost(Apply(t, op).buckets, k, rate, now, left) && left >= 0.0
    ensures Taken(t, op, k) + left <= level + (now - clock) * perSecond
  {
    left := View(Apply(t, op).buckets, k, rate, now);
    PaidWithinLevel(t, op, clock, now, k, rate, level, perSecond);
    LevelAfter(t, op, clock, now, k, rate, left);
  }

  lemma PaidTogether(taken: real, spent: real, level: real, left: real, d1: real, d2: real, perSecond: real)
    requires taken + left <= level + d1 * perSecond && spent <= left + d2 * perSecond
    ensures taken + spent <= level + (d1 + d2) * perSecond
  {
    assert (d1 + d2) * perSecond == d1 * perSecond + d2 * perSecond;
  }

  lemma RestUnchanged(ops: seq<Op>, id: RuleId)
    requires LeftUnchanged(ops, id) && ops != []
    ensures LeftUnchanged(ops[1..], id)
  {
    assert forall i :: 0 <= i < |ops[1..]| ==> ops[1..][i] == ops[i + 1];
  }

  lemma {:induction false} SpentIsPaid(t: Table, ops: seq<Op>, clock: Moment, end: Moment, k: Slot, rate: Rate,
                                       level: real, perSecond: real)
    requires Kept(t, clock) && InOrder(ops, clock) && end == ClockAtEnd(ops, clock) && LeftUnchanged(ops, k.rule)
    requires RateOf(t.rules, k.rule) == Some(rate) && Limiting(rate)
    requires AtMost(t.buckets, k, rate, clock, level) && level >= 0.0 && PerSecond(rate) <= perSecond
    ensures Spent(t, ops, clock, k) <= level + (end - clock) * perSecond
    decreases |ops|
  {
    if ops != [] {
      var op, rest, now := ops[0], ops[1..], ClockAfter(ops[0], clock);
      ApplyKeeps(t, op, clock);
      RateStays(t, op, k, rate);
      RestUnchanged(ops, k.rule);
      var left := OneOpIsPaid(t, op, clock, now, k, rate, level, perSecond);
      SpentIsPaid(Apply(t, op), rest, now, end, k, rate, left, perSecond);
      PaidTogether(Taken(t, op, k), Spent(Apply(t, op), rest, now, k), level, left, now - clock, end - now, perSecond);
    }
  }

  lemma RateStays(t: Table, op: Op, k: Slot, rate: Rate)
    requires LimitingRules(t.rules) && RateOf(t.rules, k.rule) == Some(rate) && (op.Limit? ==> op.id != k.rule)
    ensures RateOf(Apply(t, op).rules, k.rule) == Some(rate)
  {
    if op.Limit? {
      RateAfterSetLimit(t, op.id, op.rate, k.rule);
    }
  }

  /**
    * In any stretch of any run, as long as nobody changes the limit, each of its buckets lets through at most
    * the burst and what flows in meanwhile: across admissions, refusals, sweeps, class changes and other limits.
    */
  lemma WindowBound(t: Table, ops: seq<Op>, clock: Moment, end: Moment, k: Slot, rate: Rate, perSecond: real)
    requires Kept(t, clock) && InOrder(ops, clock) && end == ClockAtEnd(ops, clock) && LeftUnchanged(ops, k.rule)
    requires RateOf(t.rules, k.rule) == Some(rate) && Limiting(rate) && perSecond == PerSecond(rate)
    ensures Spent(t, ops, clock, k) <= rate.burst as real + (end - clock) * perSecond
  {
    ViewBounds(t.buckets, k, rate, clock);
    SpentIsPaid(t, ops, clock, end, k, rate, rate.burst as real, perSecond);
  }

  /**
    * From the start: whatever was done before, the tables are in order, and any stretch that follows lets through
    * each bucket of a limit that nobody sets at most the burst and what flows in meanwhile.
    */
  lemma EveryStretch(before: seq<Op>, start: Moment, t: Table, clock: Moment, ops: seq<Op>, end: Moment,
                     k: Slot, rate: Rate, perSecond: real)
    requires InOrder(before, start) && t == After(EMPTY, before, start) && clock == ClockAtEnd(before, start)
    requires InOrder(ops, clock) && end == ClockAtEnd(ops, clock) && LeftUnchanged(ops, k.rule)
    requires RateOf(t.rules, k.rule) == Some(rate) && rate.intervalMs != 0 && perSecond == PerSecond(rate)
    ensures Kept(t, clock) && Limiting(rate)
    ensures Spent(t, ops, clock, k) <= rate.burst as real + (end - clock) * perSecond
  {
    RunKeeps(EMPTY, before, start);
    RateOfLimits(t.rules, k.rule);
    WindowBound(t, ops, clock, end, k, rate, perSecond);
  }
}
