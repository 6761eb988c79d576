/** One token bucket. Tokens are reals where the source has f64; moments are seconds on the monotonic clock. */
module Buckets {

  type Moment = real

  datatype Rate = Rate(amount: nat, intervalMs: nat, burst: nat)

  /** A rate that limits something; with any field zero it stands for no limit. */
  predicate Limiting(rate: Rate) {
    rate.amount != 0 && rate.intervalMs != 0 && rate.burst != 0
  }

  datatype Bucket = Bucket(tokens: real, updated: Moment)

  function Min(a: real, b: real): real {
    if a <= b then a else b
  }

  /** The time since `earlier`; none when the clock has not passed it. */
  function Elapsed(now: Moment, earlier: Moment): (d: real)
    ensures d >= 0.0
  {
    if now <= earlier then 0.0 else now - earlier
  }

  function PerSecond(rate: Rate): (p: real)
    requires rate.intervalMs != 0
    ensures p >= 0.0
    ensures rate.amount != 0 ==> p > 0.0
  {
    rate.amount as real * 1000.0 / rate.intervalMs as real
  }

  /** What `tokens` have become after `elapsed` seconds. */
  function Level(tokens: real, elapsed: real, perSecond: real, burst: real): real {
    Min(tokens + elapsed * perSecond, burst)
  }

  function Refill(b: Bucket, rate: Rate, now: Moment): Bucket
    requires Limiting(rate)
  {
    Bucket(Level(b.tokens, Elapsed(now, b.updated), PerSecond(rate), rate.burst as real), now)
  }

  /** Refilling on the way makes no difference. */
  lemma RefillTwice(tokens: real, d1: real, d2: real, perSecond: real, burst: real)
    requires d1 >= 0.0 && d2 >= 0.0 && perSecond >= 0.0
    ensures Level(Level(tokens, d1, perSecond, burst), d2, perSecond, burst) == Level(tokens, d1 + d2, perSecond, burst)
  {
    assert (d1 + d2) * perSecond == d1 * perSecond + d2 * perSecond;
    assert d2 * perSecond >= 0.0;
  }

  lemma RefillBounds(tokens: real, elapsed: real, perSecond: real, burst: real)
    requires elapsed >= 0.0 && perSecond >= 0.0
    ensures Level(tokens, elapsed, perSecond, burst) <= burst
    ensures Level(tokens, elapsed, perSecond, burst) <= tokens + elapsed * perSecond
    ensures 0.0 <= tokens && 0.0 <= burst ==> 0.0 <= Level(tokens, elapsed, perSecond, burst)
  {
    assert elapsed * perSecond >= 0.0;
  }

  /** A full bucket stays full, however long it is left alone. */
  lemma FullStaysFull(elapsed: real, perSecond: real, burst: real)
    requires elapsed >= 0.0 && perSecond >= 0.0
    ensures Level(burst, elapsed, perSecond, burst) == burst
  {
    assert elapsed * perSecond >= 0.0;
  }

  // -------- a changed rate

  /** What a caller sees of the bucket when its rate becomes `new`: its level so far, cut to the new burst. */
  ghost predicate ChangeIsNeutral(before: Rate, after: Rate)
    requires Limiting(before) && Limiting(after)
  {
    forall b: Bucket, now: Moment :: 0.0 <= b.tokens <= before.burst as real && b.updated <= now ==>
      Refill(b, after, now).tokens == Min(Refill(b, before, now).tokens, after.burst as real)
  }

  /**
    * A change of rate leaves alone what the buckets held exactly when it keeps the tokens per second
    * and does not raise the burst; otherwise it reaches back to when each bucket was last touched.
    */
  lemma NeutralExactlyWhen(before: Rate, after: Rate)
    requires Limiting(before) && Limiting(after)
    ensures ChangeIsNeutral(before, after) <==> PerSecond(before) == PerSecond(after) && after.burst <= before.burst
  {
    if PerSecond(before) == PerSecond(after) && after.burst <= before.burst {
    } else if PerSecond(before) == PerSecond(after) {
      RaisedBurstReachesBack(before, after);
    } else {
      OtherSpeedReachesBack(before, after);
    }
  }

  lemma RaisedBurstReachesBack(before: Rate, after: Rate)
    requires Limiting(before) && Limiting(after) && before.burst < after.burst
    ensures !ChangeIsNeutral(before, after)
  {
    var full := Bucket(before.burst as real, 0.0);
    assert PerSecond(after) * 1.0 > 0.0 && PerSecond(before) * 1.0 > 0.0;
    assert Refill(full, before, 1.0).tokens == before.burst as real;
    assert Refill(full, after, 1.0).tokens > before.burst as real;
  }

  lemma OtherSpeedReachesBack(before: Rate, after: Rate)
    requires Limiting(before) && Limiting(after) && PerSecond(before) != PerSecond(after)
    ensures !ChangeIsNeutral(before, after)
  {
    // soon after both were empty neither burst matters
    var now := LevelsDiffer(PerSecond(before), PerSecond(after), before.burst as real, after.burst as real);
    var empty := Bucket(0.0, 0.0);
    assert Refill(empty, after, now).tokens != Min(Refill(empty, before, now).tokens, after.burst as real);
    assert 0.0 <= empty.tokens <= before.burst as real && empty.updated <= now;
  }

  lemma LevelsDiffer(a: real, b: real, burst1: real, burst2: real) returns (t: real)
    requires a > 0.0 && b > 0.0 && a != b && burst1 >= 1.0 && burst2 >= 1.0
    ensures t > 0.0 && Level(0.0, t, b, burst2) != Min(Level(0.0, t, a, burst1), burst2)
  {
    t := 1.0 / (a + b);
    assert t * (a + b) == 1.0;
    assert t * a > 0.0 && t * b > 0.0;
    assert t * a + t * b == 1.0;
    assert t * (a - b) == t * a - t * b;
    assert t * (a - b) != 0.0;
  }

  /** One token a second made ten a second: a bucket emptied one second ago is full at once. */
  lemma ChangeReachesBack()
    ensures var slow, fast, empty := Rate(1, 1000, 10), Rate(10, 1000, 10), Bucket(0.0, 0.0);
            Refill(empty, slow, 1.0).tokens == 1.0 && Refill(empty, fast, 1.0).tokens == 10.0
  {
    assert PerSecond(Rate(1, 1000, 10)) == 1.0;
    assert PerSecond(Rate(10, 1000, 10)) == 10.0;
  }
}
