/** Peer classes and their rate limits: what each operation does to the rules and the buckets. */
module LimitsSpec {
  import opened Types
  import opened Multiaddrs
  import opened Buckets

  const CLASS_UNKNOWN: nat := 0
  const CLASS_BLOCKED: nat := 255
  const PROTOCOL_ANY: nat := 0xffff
  const SCOPE_PEER: nat := 0
  const SCOPE_IP_PREFIX: nat := 1
  const LIMITED_BLOCKED: nat := 255
  const MAX_BUCKETS: nat := 65536

  datatype Unit = Messages | Octets

  datatype RuleId = RuleId(class_: nat, scope: nat, protocol: nat, unit: Unit)

  datatype Rule = Rule(id: RuleId, rate: Rate)

  datatype Holder = OfPeer(peer: Peer) | OfPrefix(prefix: Bytes) | Everyone

  /** Which bucket: the limit it belongs to, and who draws from it. */
  datatype Slot = Slot(rule: RuleId, holder: Holder)

  datatype Request = Request(group: Key, peer: Peer, ip: Option<Ip>, protocol: nat)

  datatype Table = Table(classes: map<Key, nat>, rules: seq<Rule>, buckets: map<Slot, Bucket>)

  const EMPTY := Table(map[], [], map[])

  datatype Verdict = Admitted | Limited(reason: nat)

  /** The /24 of an IPv4 address, the /56 of an IPv6 address; the tag keeps the two apart. */
  function Prefix(ip: Ip): Bytes {
    match ip
    case V4(o) => [4] + o[..3] + [0, 0, 0, 0]
    case V6(o) => [6] + o[..7]
  }

  /** Two connections share a prefix exactly when they share an IPv4 /24 or an IPv6 /56. */
  lemma SamePrefixExactlyWhen(a: Ip, b: Ip)
    ensures Prefix(a) == Prefix(b) <==>
              || (a.V4? && b.V4? && a.v4[..3] == b.v4[..3])
              || (a.V6? && b.V6? && a.v6[..7] == b.v6[..7])
  {
    assert Prefix(a)[1..4] == if a.V4? then a.v4[..3] else a.v6[..3];
    assert Prefix(b)[1..4] == if b.V4? then b.v4[..3] else b.v6[..3];
    assert a.V6? ==> Prefix(a)[1..] == a.v6[..7];
    assert b.V6? ==> Prefix(b)[1..] == b.v6[..7];
    assert Prefix(a)[0] == if a.V4? then 4 else 6;
    assert Prefix(b)[0] == if b.V4? then 4 else 6;
  }

  // -------- classes and rules

  function SetClass(t: Table, group: Key, class_: nat): Table {
    t.(classes := if class_ == CLASS_UNKNOWN then t.classes - {group} else t.classes[group := class_])
  }

  function ClassOf(t: Table, group: Key): nat {
    if group in t.classes then t.classes[group] else CLASS_UNKNOWN
  }

  function Without(rules: seq<Rule>, id: RuleId): seq<Rule> {
    if rules == [] then []
    else Without(rules[..|rules| - 1], id) + (if rules[|rules| - 1].id == id then [] else [rules[|rules| - 1]])
  }

  /**
    * A limiting rate becomes the rule of its id and leaves the buckets as stored; any other removes rule and
    * buckets.
    */
  function SetLimit(t: Table, id: RuleId, rate: Rate): Table {
    var others := Without(t.rules, id);
    if Limiting(rate) then t.(rules := others + [Rule(id, rate)])
    else t.(rules := others, buckets := map k | k in t.buckets && k.rule != id :: t.buckets[k])
  }

  function RateOf(rules: seq<Rule>, id: RuleId): Option<Rate> {
    if rules == [] then None
    else if rules[0].id == id then Some(rules[0].rate)
    else RateOf(rules[1..], id)
  }

  // -------- one request

  datatype Draw = Draw(rule: Rule, slot: Slot)

  function HolderOf(scope: nat, r: Request): Option<Holder> {
    if scope == SCOPE_PEER then Some(OfPeer(r.peer))
    else if scope == SCOPE_IP_PREFIX then (if r.ip.Some? then Some(OfPrefix(Prefix(r.ip.value))) else None)
    else Some(Everyone)
  }

  predicate Applies(id: RuleId, class_: nat, r: Request) {
    id.class_ == class_ && (id.protocol == PROTOCOL_ANY || id.protocol == r.protocol) && HolderOf(id.scope, r).Some?
  }

  /** The limits that match the request and the bucket each is counted in, in the order of the rules. */
  function Matching(rules: seq<Rule>, class_: nat, r: Request): seq<Draw> {
    if rules == [] then []
    else
      var last := rules[|rules| - 1];
      Matching(rules[..|rules| - 1], class_, r)
      + (if Applies(last.id, class_, r) then [Draw(last, Slot(last.id, HolderOf(last.id.scope, r).value))] else [])
  }

  function Cost(unit: Unit, bytes: nat): (c: real)
    ensures c >= 0.0
  {
    if unit.Messages? then 1.0 else bytes as real
  }

  /** The bucket as it is found, filled up to `now`; a new one is full. */
  function Found(buckets: map<Slot, Bucket>, d: Draw, now: Moment): Bucket
    requires Limiting(d.rule.rate)
  {
    Refill(if d.slot in buckets then buckets[d.slot] else Bucket(d.rule.rate.burst as real, now), d.rule.rate, now)
  }

  ghost predicate AllLimiting(draws: seq<Draw>) {
    forall i :: 0 <= i < |draws| ==> Limiting(draws[i].rule.rate)
  }

  datatype Touched = Touched(buckets: map<Slot, Bucket>, refused: Option<nat>)

  /** Brings the matching buckets up to date until one has too little; nothing is taken yet. */
  function Touch(buckets: map<Slot, Bucket>, draws: seq<Draw>, bytes: nat, now: Moment): Touched
    requires AllLimiting(draws)
  {
    if draws == [] then Touched(buckets, None)
    else
      var before := Touch(buckets, draws[..|draws| - 1], bytes, now);
      var d := draws[|draws| - 1];
      if before.refused.Some? then before
      else
        var b := Found(before.buckets, d, now);
        Touched(before.buckets[d.slot := b],
                if b.tokens < Cost(d.rule.id.unit, bytes) then Some(d.rule.id.scope) else None)
  }

  function Take(buckets: map<Slot, Bucket>, draws: seq<Draw>, bytes: nat): map<Slot, Bucket> {
    if draws == [] then buckets
    else
      var before := Take(buckets, draws[..|draws| - 1], bytes);
      var d := draws[|draws| - 1];
      if d.slot in before then
        before[d.slot := before[d.slot].(tokens := before[d.slot].tokens - Cost(d.rule.id.unit, bytes))]
      else before
  }

  ghost predicate LimitingRules(rules: seq<Rule>) {
    forall i :: 0 <= i < |rules| ==> Limiting(rules[i].rate)
  }

  lemma {:induction false} RateOfLimits(rules: seq<Rule>, id: RuleId)
    requires LimitingRules(rules)
    ensures RateOf(rules, id).Some? ==> Limiting(RateOf(rules, id).value)
  {
    if rules != [] {
      RateOfLimits(rules[1..], id);
    }
  }

  lemma {:induction false} MatchingLimits(rules: seq<Rule>, class_: nat, r: Request)
    requires LimitingRules(rules)
    ensures AllLimiting(Matching(rules, class_, r))
  {
    if rules != [] {
      MatchingLimits(rules[..|rules| - 1], class_, r);
    }
  }

  /** A bucket worth keeping: its rule is still there, and it is not full yet. */
  predicate Useful(rules: seq<Rule>, k: Slot, b: Bucket, now: Moment)
    requires LimitingRules(rules)
  {
    RateOfLimits(rules, k.rule);
    match RateOf(rules, k.rule)
    case Some(rate) => Refill(b, rate, now).tokens < rate.burst as real
    case None => false
  }

  function Refreshed(rules: seq<Rule>, k: Slot, b: Bucket, now: Moment): Bucket
    requires LimitingRules(rules)
  {
    RateOfLimits(rules, k.rule);
    match RateOf(rules, k.rule)
    case Some(rate) => Refill(b, rate, now)
    case None => b
  }

  function Sweep(t: Table, now: Moment): Table
    requires LimitingRules(t.rules)
  {
    t.(buckets := map k | k in t.buckets && Useful(t.rules, k, t.buckets[k], now)
                    :: Refreshed(t.rules, k, t.buckets[k], now))
  }

  datatype Checked = Checked(table: Table, verdict: Verdict)

  function Check(t: Table, r: Request, bytes: nat, now: Moment): Checked
    requires LimitingRules(t.rules)
  {
    var class_ := ClassOf(t, r.group);
    if class_ == CLASS_BLOCKED then Checked(t, Limited(LIMITED_BLOCKED))
    else
      var draws := Matching(t.rules, class_, r);
      MatchingLimits(t.rules, class_, r);
      var touched := Touch(t.buckets, draws, bytes, now);
      if touched.refused.Some? then Checked(t.(buckets := touched.buckets), Limited(touched.refused.value))
      else
        var taken := t.(buckets := Take(touched.buckets, draws, bytes));
        Checked(if |taken.buckets| > MAX_BUCKETS then Sweep(taken, now) else taken, Admitted)
  }

  // -------- what always holds

  ghost predicate OneRulePerId(rules: seq<Rule>) {
    forall i, j :: 0 <= i < j < |rules| ==> rules[i].id != rules[j].id
  }

  /** No bucket is overdrawn, none is from the future, and each belongs to a rule. */
  ghost predicate BucketsKept(t: Table, clock: Moment) {
    forall k :: k in t.buckets ==>
      0.0 <= t.buckets[k].tokens && t.buckets[k].updated <= clock && RateOf(t.rules, k.rule).Some?
  }

  ghost predicate Kept(t: Table, clock: Moment) {
    LimitingRules(t.rules) && OneRulePerId(t.rules) && BucketsKept(t, clock)
  }

  /** The level of a bucket as anyone would find it at `at`. */
  function View(buckets: map<Slot, Bucket>, k: Slot, rate: Rate, at: Moment): real
    requires Limiting(rate)
  {
    if k in buckets then Refill(buckets[k], rate, at).tokens else rate.burst as real
  }
}
