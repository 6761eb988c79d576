/** What one request does to the buckets, as anyone who looks at them later sees it. */
module LimitsChecks {
  import opened Types
  import opened Multiaddrs
  import opened Buckets
  import opened LimitsSpec

  // -------- the drawn buckets

  ghost predicate OneDrawPerSlot(draws: seq<Draw>) {
    forall i, j :: 0 <= i < j < |draws| ==> draws[i].slot != draws[j].slot
  }

  /** `rate` is what the slot is refilled by, whoever draws from it. */
  ghost predicate RatedBy(draws: seq<Draw>, k: Slot, rate: Rate) {
    forall i :: 0 <= i < |draws| && draws[i].slot == k ==> draws[i].rule.rate == rate
  }

  ghost predicate Drawn(draws: seq<Draw>, k: Slot) {
    exists i :: 0 <= i < |draws| && draws[i].slot == k
  }

  ghost predicate Sane(buckets: map<Slot, Bucket>, now: Moment) {
    forall k :: k in buckets ==> 0.0 <= buckets[k].tokens && buckets[k].updated <= now
  }

  lemma RefillView(b: Bucket, rate: Rate, now: Moment, at: Moment)
    requires Limiting(rate) && b.updated <= now <= at
    ensures Refill(Refill(b, rate, now), rate, at).tokens == Refill(b, rate, at).tokens
  {
    RefillTwice(b.tokens, Elapsed(now, b.updated), Elapsed(at, now), PerSecond(rate), rate.burst as real);
  }

  /** A bucket made full now is seen as one that was never made. */
  lemma NewBucketView(rate: Rate, now: Moment, at: Moment)
    requires Limiting(rate) && now <= at
    ensures Refill(Bucket(rate.burst as real, now), rate, at).tokens == rate.burst as real
  {
    FullStaysFull(Elapsed(at, now), PerSecond(rate), rate.burst as real);
  }

  lemma RefillIsSane(b: Bucket, rate: Rate, now: Moment)
    requires Limiting(rate) && 0.0 <= b.tokens
    ensures 0.0 <= Refill(b, rate, now).tokens <= rate.burst as real && Refill(b, rate, now).updated == now
  {
    RefillBounds(b.tokens, Elapsed(now, b.updated), PerSecond(rate), rate.burst as real);
  }

  // -------- looking

  lemma {:induction false} TouchLeavesOthers(buckets: map<Slot, Bucket>, draws: seq<Draw>, bytes: nat, now: Moment,
                                             k: Slot)
    requires AllLimiting(draws) && !Drawn(draws, k)
    ensures k in Touch(buckets, draws, bytes, now).buckets <==> k in buckets
    ensures k in buckets ==> Touch(buckets, draws, bytes, now).buckets[k] == buckets[k]
  {
    if draws != [] {
      var init := draws[..|draws| - 1];
      assert draws[|draws| - 1].slot != k;
      assert forall i :: 0 <= i < |init| ==> init[i] == draws[i];
      TouchLeavesOthers(buckets, init, bytes, now, k);
    }
  }

  lemma LastIsNew(draws: seq<Draw>)
    requires OneDrawPerSlot(draws) && draws != []
    ensures !Drawn(draws[..|draws| - 1], draws[|draws| - 1].slot)
    ensures OneDrawPerSlot(draws[..|draws| - 1])
  {
  }

  /** Bringing buckets up to date changes nothing that anyone can see from now on. */
  lemma {:induction false} TouchKeepsViews(buckets: map<Slot, Bucket>, draws: seq<Draw>, bytes: nat, now: Moment,
                                           k: Slot, rate: Rate, at: Moment)
    requires AllLimiting(draws) && Limiting(rate) && RatedBy(draws, k, rate) && Sane(buckets, now) && now <= at
    ensures View(Touch(buckets, draws, bytes, now).buckets, k, rate, at) == View(buckets, k, rate, at)
    ensures Sane(Touch(buckets, draws, bytes, now).buckets, now)
  {
    if draws != [] {
      var init, d := draws[..|draws| - 1], draws[|draws| - 1];
      assert forall i :: 0 <= i < |init| ==> init[i] == draws[i];
      TouchKeepsViews(buckets, init, bytes, now, k, rate, at);
      var before := Touch(buckets, init, bytes, now);
      if before.refused.None? {
        FindingKeepsViews(before.buckets, d, now, k, rate, at);
      }
    }
  }

  lemma FindingKeepsViews(buckets: map<Slot, Bucket>, d: Draw, now: Moment, k: Slot, rate: Rate, at: Moment)
    requires Limiting(d.rule.rate) && Limiting(rate) && Sane(buckets, now) && now <= at
    requires d.slot == k ==> d.rule.rate == rate
    ensures var found := buckets[d.slot := Found(buckets, d, now)];
            View(found, k, rate, at) == View(buckets, k, rate, at) && Sane(found, now)
  {
    var b := if d.slot in buckets then buckets[d.slot] else Bucket(d.rule.rate.burst as real, now);
    RefillIsSane(b, d.rule.rate, now);
    RefillView(b, d.rule.rate, now, at);
    NewBucketView(d.rule.rate, now, at);
  }

  predicate Lacks(buckets: map<Slot, Bucket>, d: Draw, bytes: nat, now: Moment)
    requires Limiting(d.rule.rate)
  {
    View(buckets, d.slot, d.rule.rate, now) < Cost(d.rule.id.unit, bytes)
  }

  /** The request is refused by the first limit that has too little, for exactly that reason. */
  ghost predicate Decided(buckets: map<Slot, Bucket>, draws: seq<Draw>, bytes: nat, now: Moment, refused: Option<nat>)
    requires AllLimiting(draws)
  {
    match refused
    case None => forall i :: 0 <= i < |draws| ==> !Lacks(buckets, draws[i], bytes, now)
    case Some(scope) =>
      exists i :: 0 <= i < |draws| && Lacks(buckets, draws[i], bytes, now) && draws[i].rule.id.scope == scope
                  && forall j :: 0 <= j < i ==> !Lacks(buckets, draws[j], bytes, now)
  }

  lemma FoundIsView(buckets: map<Slot, Bucket>, d: Draw, now: Moment)
    requires Limiting(d.rule.rate)
    ensures Found(buckets, d, now).tokens == View(buckets, d.slot, d.rule.rate, now)
  {
    NewBucketView(d.rule.rate, now, now);
  }

  lemma {:induction false} TouchDecides(buckets: map<Slot, Bucket>, draws: seq<Draw>, bytes: nat, now: Moment)
    requires AllLimiting(draws) && OneDrawPerSlot(draws)
    ensures Decided(buckets, draws, bytes, now, Touch(buckets, draws, bytes, now).refused)
  {
    if draws != [] {
      var init, d := draws[..|draws| - 1], draws[|draws| - 1];
      var before := Touch(buckets, init, bytes, now);
      LastIsNew(draws);
      TouchDecides(buckets, init, bytes, now);
      if before.refused.Some? {
        DecidedEarly(buckets, draws, bytes, now, before.refused.value);
      } else {
        TouchLeavesOthers(buckets, init, bytes, now, d.slot);
        FoundIsView(before.buckets, d, now);
        assert View(before.buckets, d.slot, d.rule.rate, now) == View(buckets, d.slot, d.rule.rate, now);
        assert forall i :: 0 <= i < |init| ==> init[i] == draws[i];
        DecidedLast(buckets, draws, bytes, now);
      }
    }
  }

  lemma DecidedEarly(buckets: map<Slot, Bucket>, draws: seq<Draw>, bytes: nat, now: Moment, scope: nat)
    requires AllLimiting(draws) && draws != [] && Decided(buckets, draws[..|draws| - 1], bytes, now, Some(scope))
    ensures Decided(buckets, draws, bytes, now, Some(scope))
  {
    var init := draws[..|draws| - 1];
    var i :| 0 <= i < |init| && Lacks(buckets, init[i], bytes, now) && init[i].rule.id.scope == scope
             && forall j :: 0 <= j < i ==> !Lacks(buckets, init[j], bytes, now);
    assert draws[i] == init[i];
    assert forall j :: 0 <= j < i ==> draws[j] == init[j];
  }

  lemma DecidedLast(buckets: map<Slot, Bucket>, draws: seq<Draw>, bytes: nat, now: Moment)
    requires AllLimiting(draws) && draws != []
    requires forall i :: 0 <= i < |draws| - 1 ==> !Lacks(buckets, draws[i], bytes, now)
    ensures var d := draws[|draws| - 1];
            Decided(buckets, draws, bytes, now,
                    if Lacks(buckets, d, bytes, now) then Some(d.rule.id.scope) else None)
  {
  }

  /** When nothing was refused every drawn bucket is there, filled up to now. */
  lemma {:induction false} TouchFills(buckets: map<Slot, Bucket>, draws: seq<Draw>, bytes: nat, now: Moment)
    requires AllLimiting(draws) && OneDrawPerSlot(draws) && Touch(buckets, draws, bytes, now).refused.None?
    ensures var touched := Touch(buckets, draws, bytes, now).buckets;
            forall i :: 0 <= i < |draws| ==>
              && draws[i].slot in touched
              && touched[draws[i].slot].updated == now
              && touched[draws[i].slot].tokens == View(buckets, draws[i].slot, draws[i].rule.rate, now)
  {
    if draws != [] {
      var init, d := draws[..|draws| - 1], draws[|draws| - 1];
      LastIsNew(draws);
      TouchFills(buckets, init, bytes, now);
      TouchLeavesOthers(buckets, init, bytes, now, d.slot);
      FoundIsView(Touch(buckets, init, bytes, now).buckets, d, now);
      assert forall i :: 0 <= i < |init| ==> init[i] == draws[i] && draws[i].slot != d.slot;
    }
  }

  // -------- taking

  /** Taking lowers each drawn bucket by its cost once, and touches no other. */
  lemma {:induction false} TakeLowers(buckets: map<Slot, Bucket>, draws: seq<Draw>, bytes: nat)
    requires OneDrawPerSlot(draws)
    requires forall i :: 0 <= i < |draws| ==> draws[i].slot in buckets
    ensures Take(buckets, draws, bytes).Keys == buckets.Keys
    ensures forall k :: k in buckets && !Drawn(draws, k) ==> Take(buckets, draws, bytes)[k] == buckets[k]
    ensures forall i :: 0 <= i < |draws| ==>
              Take(buckets, draws, bytes)[draws[i].slot]
              == buckets[draws[i].slot].(tokens := buckets[draws[i].slot].tokens - Cost(draws[i].rule.id.unit, bytes))
  {
    if draws != [] {
      var init, d := draws[..|draws| - 1], draws[|draws| - 1];
      LastIsNew(draws);
      assert forall i :: 0 <= i < |init| ==> init[i] == draws[i] && draws[i].slot != d.slot;
      TakeLowers(buckets, init, bytes);
      var before := Take(buckets, init, bytes);
      assert before[d.slot] == buckets[d.slot];
      forall k | k in buckets && !Drawn(draws, k)
        ensures Take(buckets, draws, bytes)[k] == buckets[k]
      {
        assert d.slot != k;
        assert !Drawn(init, k);
      }
    }
  }

  // -------- sweeping

  /** A bucket that is swept away is seen exactly as it was: full, from now on. */
  lemma SweepKeepsViews(t: Table, now: Moment, k: Slot, rate: Rate, at: Moment)
    requires LimitingRules(t.rules) && RateOf(t.rules, k.rule) == Some(rate) && Limiting(rate)
    requires Sane(t.buckets, now) && now <= at
    ensures View(Sweep(t, now).buckets, k, rate, at) == View(t.buckets, k, rate, at)
  {
    if k in t.buckets {
      var b := t.buckets[k];
      RefillView(b, rate, now, at);
      RefillIsSane(b, rate, now);
      NewBucketView(rate, now, at);
    }
  }

  lemma SweepIsSane(t: Table, now: Moment)
    requires LimitingRules(t.rules) && Sane(t.buckets, now)
    ensures Sane(Sweep(t, now).buckets, now)
    ensures forall k :: k in Sweep(t, now).buckets ==> k in t.buckets && RateOf(t.rules, k.rule).Some?
  {
    forall k | k in Sweep(t, now).buckets
      ensures 0.0 <= Sweep(t, now).buckets[k].tokens && Sweep(t, now).buckets[k].updated <= now
    {
      RateOfLimits(t.rules, k.rule);
      RefillIsSane(t.buckets[k], RateOf(t.rules, k.rule).value, now);
    }
  }

  // -------- the rules and what they match

  lemma {:induction false} RateIsTheRules(rules: seq<Rule>, i: nat)
    requires OneRulePerId(rules) && i < |rules|
    ensures RateOf(rules, rules[i].id) == Some(rules[i].rate)
  {
    if i > 0 {
      assert rules[0].id != rules[i].id;
      assert OneRulePerId(rules[1..]);
      RateIsTheRules(rules[1..], i - 1);
    }
  }

  lemma {:induction false} RateHasItsRule(rules: seq<Rule>, id: RuleId)
    ensures RateOf(rules, id).Some? <==> exists i :: 0 <= i < |rules| && rules[i].id == id
  {
    if rules != [] && rules[0].id != id {
      RateHasItsRule(rules[1..], id);
      if RateOf(rules, id).Some? {
        var i :| 0 <= i < |rules[1..]| && rules[1..][i].id == id;
        assert rules[i + 1].id == id;
      }
      if i :| 0 <= i < |rules| && rules[i].id == id {
        assert rules[1..][i - 1].id == id;
      }
    }
  }

  /** A draw that comes from one of the rules and is counted in the bucket of whoever asks. */
  predicate IsDrawOf(d: Draw, rules: seq<Rule>, class_: nat, r: Request) {
    && d.rule in rules && d.slot.rule == d.rule.id
    && Applies(d.rule.id, class_, r) && HolderOf(d.rule.id.scope, r) == Some(d.slot.holder)
  }

  ghost predicate AreDrawsOf(draws: seq<Draw>, rules: seq<Rule>, class_: nat, r: Request) {
    forall i :: 0 <= i < |draws| ==> IsDrawOf(draws[i], rules, class_, r)
  }

  lemma {:induction false} MatchingIsOfTheRules(rules: seq<Rule>, class_: nat, r: Request)
    ensures AreDrawsOf(Matching(rules, class_, r), rules, class_, r)
  {
    if rules != [] {
      var init, last := rules[..|rules| - 1], rules[|rules| - 1];
      var before, draws := Matching(init, class_, r), Matching(rules, class_, r);
      MatchingIsOfTheRules(init, class_, r);
      assert rules == init + [last];
      forall i | 0 <= i < |draws|
        ensures IsDrawOf(draws[i], rules, class_, r)
      {
        if i < |before| {
          assert IsDrawOf(before[i], init, class_, r);
        }
      }
    }
  }

  lemma {:induction false} MatchingHasOneDrawPerSlot(rules: seq<Rule>, class_: nat, r: Request)
    requires OneRulePerId(rules)
    ensures OneDrawPerSlot(Matching(rules, class_, r))
  {
    if rules != [] {
      var init := rules[..|rules| - 1];
      MatchingHasOneDrawPerSlot(init, class_, r);
      MatchingIsOfTheRules(init, class_, r);
      var before := Matching(init, class_, r);
      forall i | 0 <= i < |before|
        ensures before[i].slot.rule != rules[|rules| - 1].id
      {
        assert IsDrawOf(before[i], init, class_, r);
        var j :| 0 <= j < |init| && init[j] == before[i].rule;
        assert rules[j] == before[i].rule;
      }
    }
  }

  /** Nothing that applies is left out. */
  lemma {:induction false} MatchingIsComplete(rules: seq<Rule>, class_: nat, r: Request, rule: Rule)
    requires rule in rules && Applies(rule.id, class_, r)
    ensures Draw(rule, Slot(rule.id, HolderOf(rule.id.scope, r).value)) in Matching(rules, class_, r)
  {
    var init, last := rules[..|rules| - 1], rules[|rules| - 1];
    if last != rule {
      assert rules == init + [last];
      MatchingIsComplete(init, class_, r, rule);
    }
  }

  lemma MatchingIsRated(rules: seq<Rule>, class_: nat, r: Request, k: Slot, rate: Rate)
    requires OneRulePerId(rules) && RateOf(rules, k.rule) == Some(rate)
    ensures RatedBy(Matching(rules, class_, r), k, rate)
  {
    MatchingIsOfTheRules(rules, class_, r);
    var draws := Matching(rules, class_, r);
    forall i | 0 <= i < |draws| && draws[i].slot == k
      ensures draws[i].rule.rate == rate
    {
      assert IsDrawOf(draws[i], rules, class_, r);
      var j :| 0 <= j < |rules| && rules[j] == draws[i].rule;
      RateIsTheRules(rules, j);
    }
  }

  // -------- one request, all of it

  /** What the request has to pay in the slot: nothing where no limit matches. */
  ghost function Due(t: Table, r: Request, bytes: nat, k: Slot): real {
    if ClassOf(t, r.group) != CLASS_BLOCKED && RateOf(t.rules, k.rule).Some? && Applies(k.rule, ClassOf(t, r.group), r)
       && HolderOf(k.rule.scope, r) == Some(k.holder)
    then Cost(k.rule.unit, bytes) else 0.0
  }

  lemma DueWhereDrawn(t: Table, r: Request, bytes: nat, k: Slot)
    requires OneRulePerId(t.rules) && ClassOf(t, r.group) != CLASS_BLOCKED
    ensures var draws := Matching(t.rules, ClassOf(t, r.group), r);
            && (Drawn(draws, k) ==> Due(t, r, bytes, k) == Cost(k.rule.unit, bytes))
            && (!Drawn(draws, k) ==> Due(t, r, bytes, k) == 0.0)
  {
    DrawnExactlyWhen(t.rules, ClassOf(t, r.group), r, k);
  }

  lemma DrawnExactlyWhen(rules: seq<Rule>, class_: nat, r: Request, k: Slot)
    ensures Drawn(Matching(rules, class_, r), k) <==>
      RateOf(rules, k.rule).Some? && Applies(k.rule, class_, r) && HolderOf(k.rule.scope, r) == Some(k.holder)
  {
    var draws := Matching(rules, class_, r);
    RateHasItsRule(rules, k.rule);
    if RateOf(rules, k.rule).Some? && Applies(k.rule, class_, r) && HolderOf(k.rule.scope, r) == Some(k.holder) {
      var j :| 0 <= j < |rules| && rules[j].id == k.rule;
      MatchingIsComplete(rules, class_, r, rules[j]);
      var i :| 0 <= i < |draws| && draws[i] == Draw(rules[j], k);
      assert draws[i].slot == k;
    }
    if i :| 0 <= i < |draws| && draws[i].slot == k {
      MatchingIsOfTheRules(rules, class_, r);
      assert IsDrawOf(draws[i], rules, class_, r);
      var j :| 0 <= j < |rules| && rules[j] == draws[i].rule;
      assert rules[j].id == k.rule;
    }
  }

  /** A refused request leaves every bucket as it was, to anyone who looks now or later. */
  lemma RefusalChangesNothing(t: Table, r: Request, bytes: nat, now: Moment, k: Slot, rate: Rate, at: Moment)
    requires Kept(t, now) && RateOf(t.rules, k.rule) == Some(rate) && Limiting(rate) && now <= at
    requires Check(t, r, bytes, now).verdict.Limited?
    ensures var t' := Check(t, r, bytes, now).table;
            && t'.rules == t.rules && t'.classes == t.classes
            && View(t'.buckets, k, rate, at) == View(t.buckets, k, rate, at)
  {
    var class_ := ClassOf(t, r.group);
    if class_ != CLASS_BLOCKED {
      MatchingLimits(t.rules, class_, r);
      MatchingIsRated(t.rules, class_, r, k, rate);
      TouchKeepsViews(t.buckets, Matching(t.rules, class_, r), bytes, now, k, rate, at);
    }
  }

  lemma TakenView(touched: map<Slot, Bucket>, draws: seq<Draw>, bytes: nat, now: Moment, k: Slot, rate: Rate)
    requires Limiting(rate) && OneDrawPerSlot(draws) && Sane(touched, now)
    requires forall i :: 0 <= i < |draws| ==> draws[i].slot in touched && touched[draws[i].slot].updated == now
    requires forall i :: 0 <= i < |draws| ==> draws[i].slot.rule == draws[i].rule.id
    requires Drawn(draws, k) ==> touched[k].tokens <= rate.burst as real
    ensures View(Take(touched, draws, bytes), k, rate, now)
            == View(touched, k, rate, now) - (if Drawn(draws, k) then Cost(k.rule.unit, bytes) else 0.0)
  {
    TakeLowers(touched, draws, bytes);
  }

  lemma TakenIsSane(touched: map<Slot, Bucket>, draws: seq<Draw>, bytes: nat, now: Moment)
    requires OneDrawPerSlot(draws) && Sane(touched, now)
    requires forall i :: 0 <= i < |draws| ==> draws[i].slot in touched
                                              && Cost(draws[i].rule.id.unit, bytes) <= touched[draws[i].slot].tokens
    ensures Sane(Take(touched, draws, bytes), now)
  {
    TakeLowers(touched, draws, bytes);
    forall k | k in touched
      ensures Take(touched, draws, bytes)[k].updated <= now && 0.0 <= Take(touched, draws, bytes)[k].tokens
    {
      if i :| 0 <= i < |draws| && draws[i].slot == k {
      } else {
        assert !Drawn(draws, k);
      }
    }
  }

  /** What an admission does before it perhaps sweeps. */
  function TakenTable(t: Table, r: Request, bytes: nat, now: Moment): Table
    requires LimitingRules(t.rules)
  {
    var draws := Matching(t.rules, ClassOf(t, r.group), r);
    MatchingLimits(t.rules, ClassOf(t, r.group), r);
    t.(buckets := Take(Touch(t.buckets, draws, bytes, now).buckets, draws, bytes))
  }

  lemma AdmittedTable(t: Table, r: Request, bytes: nat, now: Moment)
    requires LimitingRules(t.rules) && Check(t, r, bytes, now).verdict.Admitted?
    ensures var t' := Check(t, r, bytes, now).table;
            var taken := TakenTable(t, r, bytes, now);
            t' == taken || t' == Sweep(taken, now)
  {
  }

  lemma TakenTableFacts(t: Table, r: Request, bytes: nat, now: Moment)
    requires Kept(t, now) && Check(t, r, bytes, now).verdict.Admitted?
    ensures Sane(TakenTable(t, r, bytes, now).buckets, now)
    ensures forall k: Slot, rate: Rate :: Limiting(rate) && RateOf(t.rules, k.rule) == Some(rate) ==>
              View(TakenTable(t, r, bytes, now).buckets, k, rate, now)
              == View(t.buckets, k, rate, now) - Due(t, r, bytes, k)
  {
    var class_ := ClassOf(t, r.group);
    var draws := Matching(t.rules, class_, r);
    MatchingLimits(t.rules, class_, r);
    MatchingHasOneDrawPerSlot(t.rules, class_, r);
    MatchingIsOfTheRules(t.rules, class_, r);
    var touched := Touch(t.buckets, draws, bytes, now).buckets;
    TouchDecides(t.buckets, draws, bytes, now);
    TouchFills(t.buckets, draws, bytes, now);
    TouchedIsSane(t, draws, bytes, now);
    TakenIsSane(touched, draws, bytes, now);
    forall k: Slot, rate: Rate | Limiting(rate) && RateOf(t.rules, k.rule) == Some(rate)
      ensures View(Take(touched, draws, bytes), k, rate, now) == View(t.buckets, k, rate, now) - Due(t, r, bytes, k)
    {
      TakenSlot(t, r, bytes, now, k, rate);
    }
  }

  lemma TouchedIsSane(t: Table, draws: seq<Draw>, bytes: nat, now: Moment)
    requires AllLimiting(draws) && Sane(t.buckets, now)
    ensures Sane(Touch(t.buckets, draws, bytes, now).buckets, now)
    decreases |draws|
  {
    if draws != [] {
      var init, d := draws[..|draws| - 1], draws[|draws| - 1];
      TouchedIsSane(t, init, bytes, now);
      var before := Touch(t.buckets, init, bytes, now);
      if before.refused.None? {
        FindingKeepsViews(before.buckets, d, now, d.slot, d.rule.rate, now);
      }
    }
  }

  lemma TakenSlot(t: Table, r: Request, bytes: nat, now: Moment, k: Slot, rate: Rate)
    requires Kept(t, now) && Check(t, r, bytes, now).verdict.Admitted?
    requires Limiting(rate) && RateOf(t.rules, k.rule) == Some(rate)
    ensures View(TakenTable(t, r, bytes, now).buckets, k, rate, now)
            == View(t.buckets, k, rate, now) - Due(t, r, bytes, k)
  {
    var class_ := ClassOf(t, r.group);
    var draws := Matching(t.rules, class_, r);
    MatchingLimits(t.rules, class_, r);
    MatchingHasOneDrawPerSlot(t.rules, class_, r);
    MatchingIsOfTheRules(t.rules, class_, r);
    MatchingIsRated(t.rules, class_, r, k, rate);
    TouchFills(t.buckets, draws, bytes, now);
    TouchKeepsViews(t.buckets, draws, bytes, now, k, rate, now);
    ViewBounds(t.buckets, k, rate, now);
    TouchedIsSane(t, draws, bytes, now);
    assert forall i :: 0 <= i < |draws| ==> IsDrawOf(draws[i], t.rules, class_, r);
    TakenView(Touch(t.buckets, draws, bytes, now).buckets, draws, bytes, now, k, rate);
    DueWhereDrawn(t, r, bytes, k);
  }

  lemma ViewBounds(buckets: map<Slot, Bucket>, k: Slot, rate: Rate, now: Moment)
    requires Limiting(rate)
    ensures View(buckets, k, rate, now) <= rate.burst as real
    ensures Sane(buckets, now) ==> 0.0 <= View(buckets, k, rate, now)
  {
    if k in buckets {
      RefillBounds(buckets[k].tokens, Elapsed(now, buckets[k].updated), PerSecond(rate), rate.burst as real);
    }
  }

  /** An admitted request lowers each matching bucket by exactly its cost, and no other. */
  lemma AdmissionTakesItsCost(t: Table, r: Request, bytes: nat, now: Moment, k: Slot, rate: Rate)
    requires Kept(t, now) && RateOf(t.rules, k.rule) == Some(rate) && Limiting(rate)
    requires Check(t, r, bytes, now).verdict.Admitted?
    ensures var t' := Check(t, r, bytes, now).table;
            && t'.rules == t.rules && t'.classes == t.classes
            && View(t'.buckets, k, rate, now) == View(t.buckets, k, rate, now) - Due(t, r, bytes, k)
  {
    var taken := TakenTable(t, r, bytes, now);
    AdmittedTable(t, r, bytes, now);
    TakenTableFacts(t, r, bytes, now);
    SweepKeepsViews(taken, now, k, rate, now);
  }

  /** Blocked classes are refused; any other request is admitted exactly when no matching limit has too little. */
  lemma VerdictIsTheLevels(t: Table, r: Request, bytes: nat, now: Moment)
    requires Kept(t, now)
    ensures var class_ := ClassOf(t, r.group);
            var draws := Matching(t.rules, class_, r);
            var verdict := Check(t, r, bytes, now).verdict;
            if class_ == CLASS_BLOCKED then verdict == Limited(LIMITED_BLOCKED)
            else AllLimiting(draws)
                 && Decided(t.buckets, draws, bytes, now, if verdict.Admitted? then None else Some(verdict.reason))
  {
    var class_ := ClassOf(t, r.group);
    MatchingLimits(t.rules, class_, r);
    MatchingHasOneDrawPerSlot(t.rules, class_, r);
    TouchDecides(t.buckets, Matching(t.rules, class_, r), bytes, now);
  }
}
