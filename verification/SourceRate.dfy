/** One token bucket per publishing peer, so that no node can make the others report a stream of announcements. */
module SourceRates {
  import opened Types
  import opened Buckets

  const MAX_BUCKETS: nat := 65536

  datatype Source = Source(perSecond: real, burst: real, buckets: map<Peer, Bucket>)

  ghost predicate Speed(s: Source) {
    s.perSecond >= 0.0 && s.burst >= 0.0
  }

  /** When there are many, the buckets that would be full by now are forgotten. */
  function Pruned(s: Source, now: Moment): map<Peer, Bucket> {
    if |s.buckets| > MAX_BUCKETS then
      map p | p in s.buckets
              && s.buckets[p].tokens + Elapsed(now, s.buckets[p].updated) * s.perSecond < s.burst :: s.buckets[p]
    else s.buckets
  }

  datatype Answered = Answered(source: Source, allowed: bool)

  function Draw(s: Source, buckets: map<Peer, Bucket>, peer: Peer, now: Moment): Answered {
    var b := if peer in buckets then buckets[peer] else Bucket(s.burst, now);
    var level := Level(b.tokens, Elapsed(now, b.updated), s.perSecond, s.burst);
    var left := if level < 1.0 then level else level - 1.0;
    Answered(s.(buckets := buckets[peer := Bucket(left, now)]), level >= 1.0)
  }

  function Allow(s: Source, peer: Peer, now: Moment): Answered {
    Draw(s, Pruned(s, now), peer, now)
  }

  /** The same without ever forgetting a bucket. */
  function AllowForever(s: Source, peer: Peer, now: Moment): Answered {
    Draw(s, s.buckets, peer, now)
  }

  class SourceRate {
    const perSecond: real
    const burst: real
    var buckets: map<Peer, Bucket>

    function Model(): Source
      reads this
    {
      Source(perSecond, burst, buckets)
    }

    constructor (interval: real, burst: nat)
      requires interval > 0.0
      ensures Model() == Source(1.0 / interval, burst as real, map[])
    {
      perSecond := 1.0 / interval;
      this.burst := burst as real;
      buckets := map[];
    }

    method Permit(peer: Peer, now: Moment) returns (allowed: bool)
      modifies this`buckets
      ensures Answered(Model(), allowed) == Allow(old(Model()), peer, now)
    {
      if |buckets| > MAX_BUCKETS {
        buckets := map p | p in buckets
                           && buckets[p].tokens + Elapsed(now, buckets[p].updated) * perSecond < burst :: buckets[p];
      }
      var bucket := if peer in buckets then buckets[peer] else Bucket(burst, now);
      var elapsed := Elapsed(now, bucket.updated);
      bucket := Bucket(Level(bucket.tokens, elapsed, perSecond, burst), now);
      buckets := buckets[peer := bucket];
      if bucket.tokens < 1.0 {
        return false;
      }
      buckets := buckets[peer := bucket.(tokens := bucket.tokens - 1.0)];
      return true;
    }
  }

  // -------- what a peer has left

  function View(s: Source, peer: Peer, at: Moment): real {
    if peer in s.buckets then
      Level(s.buckets[peer].tokens, Elapsed(at, s.buckets[peer].updated), s.perSecond, s.burst)
    else s.burst
  }

  ghost predicate Kept(s: Source, clock: Moment) {
    && Speed(s)
    && forall p :: p in s.buckets ==> 0.0 <= s.buckets[p].tokens <= s.burst && s.buckets[p].updated <= clock
  }

  lemma ViewBounds(s: Source, peer: Peer, at: Moment, clock: Moment)
    requires Kept(s, clock)
    ensures 0.0 <= View(s, peer, at) <= s.burst
  {
    if peer in s.buckets {
      RefillBounds(s.buckets[peer].tokens, Elapsed(at, s.buckets[peer].updated), s.perSecond, s.burst);
    }
  }

  /** Pruning only forgets buckets that are full by now, so nobody sees a difference. */
  lemma PruningIsUnseen(s: Source, now: Moment, peer: Peer, at: Moment)
    requires Kept(s, now) && now <= at
    ensures View(s.(buckets := Pruned(s, now)), peer, at) == View(s, peer, at)
    ensures Kept(s.(buckets := Pruned(s, now)), now)
  {
    if |s.buckets| > MAX_BUCKETS && peer in s.buckets && peer !in Pruned(s, now) {
      var b := s.buckets[peer];
      RefillTwice(b.tokens, Elapsed(now, b.updated), Elapsed(at, now), s.perSecond, s.burst);
      FullStaysFull(Elapsed(at, now), s.perSecond, s.burst);
    }
  }

  lemma DrawView(s: Source, peer: Peer, now: Moment, other: Peer)
    requires Kept(s, now)
    ensures Draw(s, s.buckets, peer, now).allowed <==> View(s, peer, now) >= 1.0
    ensures var r := Draw(s, s.buckets, peer, now);
            && Kept(r.source, now) && r.source.perSecond == s.perSecond && r.source.burst == s.burst
            && View(r.source, other, now)
               == View(s, other, now) - (if other == peer && r.allowed then 1.0 else 0.0)
  {
    ViewBounds(s, peer, now, now);
    FullStaysFull(Elapsed(now, now), s.perSecond, s.burst);
  }

  /** A peer is allowed an announcement exactly when it has a token left, and the token is all that is taken. */
  lemma AllowTakesOneToken(s: Source, peer: Peer, now: Moment, other: Peer)
    requires Kept(s, now)
    ensures var r := Allow(s, peer, now);
            && (r.allowed <==> View(s, peer, now) >= 1.0)
            && Kept(r.source, now) && r.source.perSecond == s.perSecond && r.source.burst == s.burst
            && View(r.source, other, now) == View(s, other, now) - (if other == peer && r.allowed then 1.0 else 0.0)
  {
    var pruned := s.(buckets := Pruned(s, now));
    PruningIsUnseen(s, now, peer, now);
    PruningIsUnseen(s, now, other, now);
    DrawView(pruned, peer, now, other);
    assert Draw(pruned, pruned.buckets, peer, now) == Draw(s, pruned.buckets, peer, now);
  }

  lemma ViewGrows(s: Source, peer: Peer, from: Moment, to: Moment)
    requires Kept(s, from) && from <= to
    ensures View(s, peer, to) == Level(View(s, peer, from), to - from, s.perSecond, s.burst)
  {
    if peer in s.buckets {
      RefillTwice(s.buckets[peer].tokens, Elapsed(from, s.buckets[peer].updated), to - from, s.perSecond, s.burst);
    } else {
      FullStaysFull(to - from, s.perSecond, s.burst);
    }
  }

  // -------- runs

  datatype Publication = Publication(peer: Peer, now: Moment)

  ghost predicate InOrder(ps: seq<Publication>, clock: Moment)
    decreases |ps|
  {
    ps == [] || (clock <= ps[0].now && InOrder(ps[1..], ps[0].now))
  }

  function ClockAtEnd(ps: seq<Publication>, clock: Moment): Moment
    decreases |ps|
  {
    if ps == [] then clock else ClockAtEnd(ps[1..], ps[0].now)
  }

  function Answers(s: Source, ps: seq<Publication>): seq<bool>
    decreases |ps|
  {
    if ps == [] then []
    else
      var r := Allow(s, ps[0].peer, ps[0].now);
      [r.allowed] + Answers(r.source, ps[1..])
  }

  function AnswersForever(s: Source, ps: seq<Publication>): seq<bool>
    decreases |ps|
  {
    if ps == [] then []
    else
      var r := AllowForever(s, ps[0].peer, ps[0].now);
      [r.allowed] + AnswersForever(r.source, ps[1..])
  }

  ghost predicate SameViews(s: Source, full: Source, at: Moment) {
    && s.perSecond == full.perSecond && s.burst == full.burst
    && forall p :: View(s, p, at) == View(full, p, at)
  }

  lemma SameViewsLater(s: Source, full: Source, from: Moment, to: Moment)
    requires Kept(s, from) && Kept(full, from) && from <= to && SameViews(s, full, from)
    ensures SameViews(s, full, to)
  {
    forall p
      ensures View(s, p, to) == View(full, p, to)
    {
      ViewGrows(s, p, from, to);
      ViewGrows(full, p, from, to);
    }
  }

  lemma SameViewsAfter(s: Source, full: Source, peer: Peer, now: Moment)
    requires Kept(s, now) && Kept(full, now) && SameViews(s, full, now)
    ensures Allow(s, peer, now).allowed == AllowForever(full, peer, now).allowed
    ensures Kept(Allow(s, peer, now).source, now) && Kept(AllowForever(full, peer, now).source, now)
    ensures SameViews(Allow(s, peer, now).source, AllowForever(full, peer, now).source, now)
  {
    AllowTakesOneToken(s, peer, now, peer);
    DrawView(full, peer, now, peer);
    forall p
      ensures View(Allow(s, peer, now).source, p, now) == View(AllowForever(full, peer, now).source, p, now)
    {
      AllowTakesOneToken(s, peer, now, p);
      DrawView(full, peer, now, p);
    }
  }

  /** Forgetting full buckets changes no answer of any run. */
  lemma {:induction false} PruningChangesNoAnswer(s: Source, full: Source, ps: seq<Publication>, clock: Moment)
    requires Kept(s, clock) && Kept(full, clock) && SameViews(s, full, clock) && InOrder(ps, clock)
    ensures Answers(s, ps) == AnswersForever(full, ps)
    decreases |ps|
  {
    if ps != [] {
      SameViewsLater(s, full, clock, ps[0].now);
      SameViewsAfter(s, full, ps[0].peer, ps[0].now);
      PruningChangesNoAnswer(Allow(s, ps[0].peer, ps[0].now).source, AllowForever(full, ps[0].peer, ps[0].now).source,
                             ps[1..], ps[0].now);
    }
  }

  /** The token that an answer costs the peer. */
  function Token(r: Answered, from: Peer, peer: Peer): real {
    if r.allowed && from == peer then 1.0 else 0.0
  }

  /** How many announcements of the peer a run allows, one token each. */
  function Allowed(s: Source, ps: seq<Publication>, peer: Peer): real
    decreases |ps|
  {
    if ps == [] then 0.0
    else
      var r := Allow(s, ps[0].peer, ps[0].now);
      Token(r, ps[0].peer, peer) + Allowed(r.source, ps[1..], peer)
  }

  /** The peer is seen to have at most `level` when the clock reads `clock`. */
  ghost predicate AtMost(s: Source, peer: Peer, clock: Moment, level: real) {
    forall at :: at == clock ==> 0.0 <= View(s, peer, at) <= level
  }

  lemma ViewGrowsNoFaster(s: Source, peer: Peer, from: Moment, to: Moment, perSecond: real)
    requires Kept(s, from) && from <= to && s.perSecond == perSecond
    ensures View(s, peer, to) <= View(s, peer, from) + (to - from) * perSecond
  {
    ViewGrows(s, peer, from, to);
    RefillBounds(View(s, peer, from), to - from, s.perSecond, s.burst);
  }

  lemma PaidWithinLevel(s: Source, from: Peer, clock: Moment, now: Moment, peer: Peer, level: real, perSecond: real)
    requires Kept(s, clock) && clock <= now && AtMost(s, peer, clock, level) && s.perSecond == perSecond
    ensures var r := Allow(s, from, now);
            Token(r, from, peer) + View(r.source, peer, now) <= level + (now - clock) * perSecond
  {
    AllowTakesOneToken(s, from, now, peer);
    ViewGrowsNoFaster(s, peer, clock, now, perSecond);
    assert View(s, peer, clock) <= level;
  }

  lemma LevelAfter(s: Source, from: Peer, clock: Moment, now: Moment, peer: Peer)
    requires Kept(s, clock) && clock <= now
    ensures var r := Allow(s, from, now).source;
            Kept(r, now) && r.perSecond == s.perSecond && r.burst == s.burst && AtMost(r, peer, now, View(r, peer, now))
  {
    AllowTakesOneToken(s, from, now, peer);
    ViewBounds(Allow(s, from, now).source, peer, now, now);
  }

  /** What one announcement takes is paid out of the level and what flowed in since the clock was read. */
  lemma OnePublication(s: Source, from: Peer, clock: Moment, now: Moment, peer: Peer, level: real, perSecond: real)
    returns (left: real)
    requires Kept(s, clock) && clock <= now && AtMost(s, peer, clock, level) && s.perSecond == perSecond
    ensures var r := Allow(s, from, now);
            && Kept(r.source, now) && r.source.perSecond == perSecond && r.source.burst == s.burst
            && AtMost(r.source, peer, now, left)
            && Token(r, from, peer) + left <= level + (now - clock) * perSecond
  {
    left := View(Allow(s, from, now).source, peer, now);
    PaidWithinLevel(s, from, clock, now, peer, level, perSecond);
    LevelAfter(s, from, clock, now, peer);
  }

  lemma AddUp(one: real, rest: real, before: real, between: real, d1: real, d2: real, perSecond: real)
    requires one + between <= before + d1 * perSecond && rest <= between + d2 * perSecond
    ensures one + rest <= before + (d1 + d2) * perSecond
  {
    assert (d1 + d2) * perSecond == d1 * perSecond + d2 * perSecond;
  }

  lemma NothingSpent(s: Source, clock: Moment, peer: Peer, level: real)
    requires AtMost(s, peer, clock, level)
    ensures 0.0 <= level
  {
    assert 0.0 <= View(s, peer, clock) <= level;
  }

  lemma {:induction false} AllowedIsPaid(s: Source, ps: seq<Publication>, clock: Moment, end: Moment, peer: Peer,
                                         level: real, perSecond: real)
    requires Kept(s, clock) && InOrder(ps, clock) && end == ClockAtEnd(ps, clock)
    requires AtMost(s, peer, clock, level) && s.perSecond == perSecond
    ensures Allowed(s, ps, peer) <= level + (end - clock) * perSecond
    decreases |ps|
  {
    hide Allow;
    if ps == [] {
      NothingSpent(s, clock, peer, level);
      assert end - clock == 0.0;
    } else {
      var from, now := ps[0].peer, ps[0].now;
      var r := Allow(s, from, now);
      var left := OnePublication(s, from, clock, now, peer, level, perSecond);
      AllowedIsPaid(r.source, ps[1..], now, end, peer, left, perSecond);
      AddUp(Token(r, from, peer), Allowed(r.source, ps[1..], peer), level, left, now - clock, end - now, perSecond);
    }
  }

  /** In any stretch of time no source is allowed more than the burst and one announcement per interval. */
  lemma SourceBound(s: Source, ps: seq<Publication>, clock: Moment, end: Moment, peer: Peer, perSecond: real)
    requires Kept(s, clock) && InOrder(ps, clock) && end == ClockAtEnd(ps, clock) && s.perSecond == perSecond
    ensures Allowed(s, ps, peer) <= s.burst + (end - clock) * perSecond
  {
    ViewBounds(s, peer, clock, clock);
    AllowedIsPaid(s, ps, clock, end, peer, s.burst, perSecond);
  }
}
