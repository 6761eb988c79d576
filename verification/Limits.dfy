/** The limits themselves: rules and buckets as fields, changed in place. */
module LimitsTable {
  import opened Types
  import opened Buckets
  import opened LimitsSpec
  import opened LimitsChecks
  import opened LimitsRuns

  class Limits {
    var classes: map<Key, nat>
    var rules: seq<Rule>
    var buckets: map<Slot, Bucket>

    function Model(): Table
      reads this
    {
      Table(classes, rules, buckets)
    }

    constructor ()
      ensures Model() == EMPTY
    {
      classes, rules, buckets := map[], [], map[];
    }

    method SetClassOf(group: Key, class_: nat)
      modifies this`classes
      ensures Model() == SetClass(old(Model()), group, class_)
    {
      if class_ == CLASS_UNKNOWN {
        classes := classes - {group};
      } else {
        classes := classes[group := class_];
      }
    }

    method SetRate(id: RuleId, rate: Rate)
      modifies this`rules, this`buckets
      ensures Model() == SetLimit(old(Model()), id, rate)
    {
      rules := Without(rules, id);
      if rate.amount != 0 && rate.intervalMs != 0 && rate.burst != 0 {
        rules := rules + [Rule(id, rate)];
      } else {
        buckets := map k | k in buckets && k.rule != id :: buckets[k];
      }
    }

    /**
      * The verdict on a request. The first loop only looks, so a refusal costs nobody a token; the second takes.
      */
    method Admit(r: Request, bytes: nat, now: Moment) returns (verdict: Verdict)
      requires LimitingRules(rules)
      modifies this`buckets
      ensures Checked(Model(), verdict) == Check(old(Model()), r, bytes, now)
    {
      var class_ := if r.group in classes then classes[r.group] else CLASS_UNKNOWN;
      if class_ == CLASS_BLOCKED {
        return Limited(LIMITED_BLOCKED);
      }
      var draws := MatchingRules(class_, r);
      MatchingLimits(rules, class_, r);
      var refused := TouchAll(draws, bytes, now);
      if refused.Some? {
        return Limited(refused.value);
      }
      TakeAll(draws, bytes);
      if |buckets| > MAX_BUCKETS {
        Clean(now);
      }
      return Admitted;
    }

    method TouchAll(draws: seq<Draw>, bytes: nat, now: Moment) returns (refused: Option<nat>)
      requires AllLimiting(draws)
      modifies this`buckets
      ensures Touched(buckets, refused) == Touch(old(buckets), draws, bytes, now)
    {
      for i := 0 to |draws|
        invariant Touch(old(buckets), draws[..i], bytes, now) == Touched(buckets, None)
      {
        assert draws[..i + 1][..i] == draws[..i];
        var d := draws[i];
        var b := Refill(if d.slot in buckets then buckets[d.slot] else Bucket(d.rule.rate.burst as real, now),
                        d.rule.rate, now);
        buckets := buckets[d.slot := b];
        if b.tokens < Cost(d.rule.id.unit, bytes) {
          RefusedEarly(old(buckets), draws, bytes, now, i + 1);
          return Some(d.rule.id.scope);
        }
      }
      assert draws[..|draws|] == draws;
      return None;
    }

    method TakeAll(draws: seq<Draw>, bytes: nat)
      modifies this`buckets
      ensures buckets == Take(old(buckets), draws, bytes)
    {
      for i := 0 to |draws|
        invariant buckets == Take(old(buckets), draws[..i], bytes)
      {
        assert draws[..i + 1][..i] == draws[..i];
        var d := draws[i];
        if d.slot in buckets {
          var b := buckets[d.slot];
          buckets := buckets[d.slot := b.(tokens := b.tokens - Cost(d.rule.id.unit, bytes))];
        }
      }
      assert draws[..|draws|] == draws;
    }

    /** The limits that match, each with the bucket the request is counted in. */
    method MatchingRules(class_: nat, r: Request) returns (draws: seq<Draw>)
      ensures draws == Matching(rules, class_, r)
    {
      draws := [];
      for i := 0 to |rules|
        invariant draws == Matching(rules[..i], class_, r)
      {
        assert rules[..i + 1][..i] == rules[..i];
        if Applies(rules[i].id, class_, r) {
          draws := draws + [Draw(rules[i], Slot(rules[i].id, HolderOf(rules[i].id.scope, r).value))];
        }
      }
      assert rules[..|rules|] == rules;
    }

    /** Drops every bucket that would look the same if it were made anew, and those without a rule. */
    method Clean(now: Moment)
      requires LimitingRules(rules)
      modifies this`buckets
      ensures Model() == Sweep(old(Model()), now)
    {
      var left, kept := buckets.Keys, map[];
      while left != {}
        invariant left <= buckets.Keys && buckets == old(buckets)
        invariant forall k :: k in kept <==> k in buckets && k !in left && Useful(rules, k, buckets[k], now)
        invariant forall k :: k in kept ==> kept[k] == Refreshed(rules, k, buckets[k], now)
        decreases left
      {
        var k :| k in left;
        left := left - {k};
        if Useful(rules, k, buckets[k], now) {
          kept := kept[k := Refreshed(rules, k, buckets[k], now)];
        }
      }
      buckets := kept;
    }
  }

  /** Once a limit refuses, those after it are not even looked at. */
  lemma {:induction false} RefusedEarly(buckets: map<Slot, Bucket>, draws: seq<Draw>, bytes: nat, now: Moment, n: nat)
    requires AllLimiting(draws) && n <= |draws| && Touch(buckets, draws[..n], bytes, now).refused.Some?
    ensures Touch(buckets, draws, bytes, now) == Touch(buckets, draws[..n], bytes, now)
    decreases |draws|
  {
    if n < |draws| {
      assert draws[..|draws| - 1][..n] == draws[..n];
      RefusedEarly(buckets, draws[..|draws| - 1], bytes, now, n);
    } else {
      assert draws[..n] == draws;
    }
  }
}
