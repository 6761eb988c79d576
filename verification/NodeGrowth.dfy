/** What was said and sent stays said and sent: the log and both sequences of ids only get longer. */
module NodeGrowth {
  import opened Types
  import opened AddressBooks
  import opened Calls
  import opened NodeSpec

  ghost predicate Longer(s: State, s': State) {
    s.log <= s'.log && s.sent <= s'.sent && s.queries <= s'.queries && s.searches.Keys <= s'.searches.Keys
  }

  /** Nothing is said or sent. */
  ghost predicate Quiet(s: State, s': State) {
    s'.log == s.log && s'.sent == s.sent && s'.queries == s.queries && s'.searches == s.searches
  }

  lemma AskLengthens(s: State, id: nat, c: Call, pick: Pick)
    requires pick.choice.Ask?
    ensures Longer(s, Act(s, id, c, pick))
  {
  }

  lemma ResolveLengthens(s: State, id: nat, c: Call, pick: Pick)
    requires pick.choice.Resolve?
    ensures Longer(s, Act(s, id, c, pick))
  {
  }

  lemma IdleLengthens(s: State, id: nat, c: Call, pick: Pick)
    requires pick.choice.Nobody? && c.lookupRunning
    ensures Longer(s, Act(s, id, c, pick))
  {
  }

  lemma GiveUpLengthens(s: State, id: nat, c: Call, pick: Pick)
    requires pick.choice.Nobody? && !c.lookupRunning
    ensures Longer(s, Act(s, id, c, pick))
  {
  }

  lemma ActLengthens(s: State, id: nat, c: Call, pick: Pick)
    ensures Longer(s, Act(s, id, c, pick))
  {
    match pick.choice
    case Ask(_) => AskLengthens(s, id, c, pick);
    case Resolve(_) => ResolveLengthens(s, id, c, pick);
    case Nobody =>
      if c.lookupRunning {
        IdleLengthens(s, id, c, pick);
      } else {
        GiveUpLengthens(s, id, c, pick);
      }
  }

  lemma AdvanceLengthens(s: State, id: nat, connected: set<Peer>)
    ensures Longer(s, Advance(s, id, connected))
  {
    if id in s.calls && !s.calls[id].inFlight && !s.calls[id].resolving {
      var c := s.calls[id];
      ActLengthens(s, id, c, Choose(c.candidates, c.resolved, connected + s.book.addresses.Keys));
    }
  }

  lemma StartLengthens(s: State, cfg: Config, id: nat, group: Key, node: Option<Key>, protocol: nat,
                       payload: Bytes, deadline: Time, connected: set<Peer>)
    requires protocol < |cfg.rpcProtocols|
    ensures Longer(s, StartCall(s, cfg, id, group, node, protocol, payload, deadline, connected))
  {
    var s' := Looking(s, cfg, id, group, node, protocol, payload, deadline);
    assert Longer(s, s');
    AdvanceLengthens(s', id, connected);
  }

  lemma {:induction false} ExpireLengthens(s: State, order: seq<nat>)
    ensures Longer(s, Expire(s, order))
  {
    if order != [] {
      var before, id := Expire(s, order[..|order| - 1]), order[|order| - 1];
      ExpireLengthens(s, order[..|order| - 1]);
      assert Longer(before, ExpireOne(before, id));
    }
  }

  lemma SearchLengthens(s: State, id: nat, events: seq<Event>, reason: nat)
    ensures Longer(s, Emit(s, id, events)) && Longer(s, Finish(s, id, reason))
  {
  }

  lemma LookupProgressLengthens(s: State, m: State, query: nat, id: nat, last: bool, connected: set<Peer>)
    requires Quiet(s, m)
    ensures Longer(s, Advance(if last then LookupEnds(m, query, id) else m, id, connected))
  {
    if last {
      AdvanceLengthens(LookupEnds(m, query, id), id, connected);
    } else {
      AdvanceLengthens(m, id, connected);
    }
  }

  lemma ProvidersLengthen(s: State, cfg: Config, query: nat, reports: seq<Report>, last: bool, connected: set<Peer>)
    ensures Longer(s, ProvidersFound(s, cfg, query, reports, last, connected))
  {
    if query in s.topicLookups {
    } else if query in s.providerQueries {
      SearchProvidersLengthen(s, cfg, query, reports, last, connected);
    } else if query in s.providerLookups {
      var id := s.providerLookups[query];
      if id in s.calls {
        LookupProgressLengthens(s, Hear(s, cfg, id, reports), query, id, last, connected);
      } else {
        LookupProgressLengthens(s, s, query, id, last, connected);
      }
    }
  }

  lemma SearchProvidersLengthen(s: State, cfg: Config, query: nat, reports: seq<Report>, last: bool,
                                connected: set<Peer>)
    requires query !in s.topicLookups && query in s.providerQueries
    ensures Longer(s, ProvidersFound(s, cfg, query, reports, last, connected))
  {
    var id := s.providerQueries[query];
    var shown := Emit(s, id, ProviderEvents(cfg, s.book, id, reports));
    SearchLengthens(s, id, ProviderEvents(cfg, s.book, id, reports), 0);
    SearchLengthens(shown.(providerQueries := s.providerQueries - {query}), id, [], 0);
  }

  lemma ClosestLengthens(s: State, query: nat, events: seq<Event>, connected: set<Peer>)
    ensures Longer(s, Closest(s, query, events, connected))
  {
    if query in s.resolutions {
      QuietEnd(s, query);
      AdvanceLengthens(ResolutionEnds(s, query), s.resolutions[query], connected);
    } else if query in s.walks {
      var id, s' := s.walks[query], s.(walks := s.walks - {query});
      SearchLengthens(s', id, events, 0);
      SearchLengthens(Emit(s', id, events), id, [], 0);
    }
  }

  lemma QuietEnd(s: State, query: nat)
    requires query in s.resolutions
    ensures Quiet(s, ResolutionEnds(s, query))
  {
    var id := s.resolutions[query];
    var s' := s.(resolutions := s.resolutions - {query}, resolutionOf := s.resolutionOf - {id});
    if id in s.calls {
      QuietCompletion(s', id, s.calls[id].(resolving := false));
    } else {
      assert Quiet(s, s');
    }
  }

  lemma QuietCompletion(s: State, id: nat, c: Call)
    ensures Quiet(s, Complete(s, id, c))
  {
  }

  lemma QuietRequestEnd(s: State, request: nat, failure: nat)
    requires request in s.outbound
    ensures Quiet(s, RequestEnds(s, request, failure))
  {
    var id := s.outbound[request];
    var s' := s.(outbound := s.outbound - {request}, requestOf := s.requestOf - {id});
    if id in s.calls {
      QuietCompletion(s', id, s.calls[id].(inFlight := false, lastFailure := failure));
    } else {
      assert Quiet(s, s');
    }
  }

  lemma FailureLengthens(s: State, peer: Peer, request: nat, error: SendError, now: Time, connected: set<Peer>)
    ensures Longer(s, RequestFailed(s, peer, request, error, now, connected))
  {
    if request in s.outbound {
      var s' := s.(failed := RememberFailure(s.failed, peer, now));
      QuietRequestEnd(s', request, FailureOf(error));
      AdvanceLengthens(RequestEnds(s', request, FailureOf(error)), s.outbound[request], connected);
    }
  }

  lemma AnswerLengthens(s: State, id: nat, peer: Peer, frame: Bytes, nowMs: nat, answer: Answer)
    requires id in s.calls
    ensures Longer(s, Answers(s, id, peer, frame, nowMs, answer))
  {
  }

  lemma ReplyLengthens(s: State, cfg: Config, peer: Peer, request: nat, frame: Bytes, nowMs: nat, now: Time,
                       connected: set<Peer>)
    ensures Longer(s, Replied(s, cfg, peer, request, frame, nowMs, now, connected))
  {
    if request in s.outbound {
      var id, done := s.outbound[request], RequestEnds(s, request, FAIL_REFUSED);
      QuietRequestEnd(s, request, FAIL_REFUSED);
      if id in s.calls {
        match Accept(cfg.prims, peer, s.calls[id].group, frame, nowMs)
        case Some(answer) => AnswerLengthens(done, id, peer, frame, nowMs, answer);
        case None => AdvanceLengthens(done.(failed := RememberFailure(s.failed, peer, now)), id, connected);
      }
    }
  }

  lemma BootstrapLengthens(s: State, query: nat, ok: bool, last: bool)
    ensures Longer(s, BootstrapProgressed(s, query, ok, last))
  {
    if last && query in s.bootstraps {
      SearchLengthens(s.(bootstraps := s.bootstraps - {query}), s.bootstraps[query], [],
                      if ok then 0 else FAIL_TIMEOUT);
    }
  }

  lemma StartSearchLengthens(s: State, cfg: Config, step: Step)
    requires Enabled(s, cfg, step)
    requires step.DoWalk? || step.DoFindProviders? || step.DoTopicLookup? || step.OnAddresses? || step.OnInternalQuery?
    ensures Longer(s, Next(s, cfg, step))
  {
  }

  lemma StartBootstrapLengthens(s: State, id: nat, started: bool)
    ensures Longer(s, StartBootstrap(s, id, started))
  {
    if started {
      assert Longer(s, StartBootstrap(s, id, true));
    } else {
      assert Longer(s, StartBootstrap(s, id, false));
    }
  }

  lemma ClosestFoundLengthens(s: State, cfg: Config, query: nat, found: seq<Found>, connected: set<Peer>)
    ensures Longer(s, ClosestFound(s, cfg, query, found, connected))
  {
    var walk := if query in s.walks then s.walks[query] else 0;
    ClosestLengthens(s.(book := LearnAll(s.book, found)), query, FoundEvents(cfg, walk, found), connected);
  }

  /** No step takes back an event, a request or a query, or forgets a search. */
  lemma StepLengthens(s: State, cfg: Config, step: Step)
    requires Enabled(s, cfg, step)
    ensures Longer(s, Next(s, cfg, step))
  {
    match step
    case DoCall(id, group, node, protocol, payload, deadline, connected) =>
      StartLengthens(s, cfg, id, group, node, protocol, payload, deadline, connected);
    case DoBootstrap(id, started) => StartBootstrapLengthens(s, id, started);
    case OnTick(now, order) => ExpireLengthens(s, order);
    case OnProviders(query, reports, last, connected) => ProvidersLengthen(s, cfg, query, reports, last, connected);
    case OnClosest(query, found, connected) => ClosestFoundLengthens(s, cfg, query, found, connected);
    case OnBootstrap(query, ok, last) => BootstrapLengthens(s, query, ok, last);
    case OnFailure(peer, request, error, now, connected) => FailureLengthens(s, peer, request, error, now, connected);
    case OnReply(peer, request, frame, nowMs, now, connected) =>
      ReplyLengthens(s, cfg, peer, request, frame, nowMs, now, connected);
    case _ => StartSearchLengthens(s, cfg, step);
  }

  lemma {:induction false} RunLengthens(s: State, cfg: Config, steps: seq<Step>)
    requires IsRun(s, cfg, steps)
    ensures Longer(s, After(s, cfg, steps))
    decreases |steps|
  {
    if steps != [] {
      StepLengthens(s, cfg, steps[0]);
      RunLengthens(Next(s, cfg, steps[0]), cfg, steps[1..]);
    }
  }
}
