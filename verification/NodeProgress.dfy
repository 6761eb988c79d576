/** How a call moves: its history only grows, each completion pays a unit of work, and its end is final. */
module NodeProgress {
  import opened Types
  import opened AddressBooks
  import opened Calls
  import opened NodeSpec
  import opened CallAccount
  import opened CallTables
  import opened CallEntries
  import opened CallBooks
  import opened CallRights
  import opened NodeQueries
  import opened NodeInvariant
  import opened NodeSteps

  /** Nothing that was done for a call is undone. */
  ghost predicate Grows(h: History, h': History) {
    && h.asked <= h'.asked && h.looked <= h'.looked && h.dropped <= h'.dropped
    && h.reported <= h'.reported && h.completions <= h'.completions
    && h'.group == h.group && h'.protocol == h.protocol && h'.frame == h.frame && h'.pinned == h.pinned
  }

  /** Every completion lowers the potential; only a new peer raises it, by two at most. */
  ghost predicate Pays(c: Call, h: History, c': Call, h': History) {
    && Potential(c') + h'.completions + 2 * |h.reported| <= Potential(c) + h.completions + 2 * |h'.reported|
  }

  ghost predicate MovesOne(calls: map<nat, Call>, ledger: map<nat, History>,
                           calls': map<nat, Call>, ledger': map<nat, History>, id: nat) {
    && id in ledger'
    && if id in calls then
         && Grows(Past(ledger, id), ledger'[id])
         && (id in calls' ==> Pays(calls[id], Past(ledger, id), calls'[id], ledger'[id]))
       else id !in calls' && ledger'[id] == Past(ledger, id)
  }

  ghost predicate Moves(s: State, s': State) {
    forall id :: id in s.ledger ==> MovesOne(s.calls, s.ledger, s'.calls, s'.ledger, id)
  }

  lemma MovesTwice(s: State, m: State, s': State)
    requires Moves(s, m) && Moves(m, s')
    ensures Moves(s, s')
  {
    forall id | id in s.ledger
      ensures MovesOne(s.calls, s.ledger, s'.calls, s'.ledger, id)
    {
      assert MovesOne(s.calls, s.ledger, m.calls, m.ledger, id);
      assert MovesOne(m.calls, m.ledger, s'.calls, s'.ledger, id);
    }
  }

  lemma StaysPut(s: State, s': State)
    requires s'.calls == s.calls && s'.ledger == s.ledger
    ensures Moves(s, s')
  {
  }

  lemma OneCallMoves(s: State, s': State, id: nat, c: Call, h: History)
    requires id in s.calls && s'.calls == s.calls[id := c] && s'.ledger == s.ledger[id := h]
    requires Grows(Past(s.ledger, id), h) && Pays(s.calls[id], Past(s.ledger, id), c, h)
    ensures Moves(s, s')
  {
  }

  lemma OneCallEnds(s: State, s': State, id: nat, h: History)
    requires id in s.calls && s'.calls == s.calls - {id} && s'.ledger == s.ledger[id := h]
    requires Grows(Past(s.ledger, id), h)
    ensures Moves(s, s')
  {
  }

  // -------- the parts of a handler

  lemma AdvanceMoves(s: State, cfg: Config, id: nat, connected: set<Peer>)
    requires Sound(cfg, s)
    ensures Moves(s, Advance(s, id, connected))
  {
    if id in s.calls && !s.calls[id].inFlight && !s.calls[id].resolving {
      ActMoves(s, cfg, id, connected + s.book.addresses.Keys);
    } else {
      StaysPut(s, s);
    }
  }

  lemma ActMoves(s: State, cfg: Config, id: nat, dialable: set<Peer>)
    requires Sound(cfg, s) && id in s.calls && !s.calls[id].inFlight && !s.calls[id].resolving
    ensures Moves(s, Act(s, id, s.calls[id], Choose(s.calls[id].candidates, s.calls[id].resolved, dialable)))
  {
    var c, h := s.calls[id], Past(s.ledger, id);
    var pick := Choose(c.candidates, c.resolved, dialable);
    ActKeepsAccount(c, h, dialable);
    HistoryGrows(h, pick);
    if pick.choice.Nobody? && !c.lookupRunning {
      GiveUpShape(s, id, c, pick);
      OneCallEnds(s, Act(s, id, c, pick), id, HistoryAfter(h, pick).(outcome := Exhausted(c.lastFailure)));
    } else {
      TryShape(s, id, c, pick);
      OneCallMoves(s, Act(s, id, c, pick), id, CallAfter(c, pick), HistoryAfter(h, pick));
    }
  }

  lemma HistoryGrows(h: History, pick: Pick)
    ensures Grows(h, HistoryAfter(h, pick))
    ensures HistoryAfter(h, pick).completions == h.completions && HistoryAfter(h, pick).reported == h.reported
  {
    match pick.choice
    case Ask(_) =>
    case Resolve(_) =>
    case Nobody =>
  }

  lemma EndMoves(s: State, id: nat, outcome: Outcome, event: Event)
    requires id in s.calls
    ensures Moves(s, End(s, id, outcome, event))
  {
    OneCallEnds(s, End(s, id, outcome, event), id, Past(s.ledger, id).(outcome := outcome));
  }

  lemma LookingMoves(s: State, cfg: Config, id: nat, group: Key, node: Option<Key>, protocol: nat, payload: Bytes,
                     deadline: Time)
    requires id !in s.ledger && protocol < |cfg.rpcProtocols|
    ensures Moves(s, Looking(s, cfg, id, group, node, protocol, payload, deadline))
  {
  }

  lemma HearMoves(s: State, cfg: Config, id: nat, reports: seq<Report>)
    requires Sound(cfg, s) && id in s.calls
    ensures Moves(s, Hear(s, cfg, id, reports))
  {
    var c, h := s.calls[id], Past(s.ledger, id);
    ReportsKeepAccount(c, h, reports, cfg.localPeer, s.lastSuccess, s.failed);
    OneCallMoves(s, Hear(s, cfg, id, reports), id, QueueReports(c, reports, cfg.localPeer, s.lastSuccess, s.failed),
                 h.(reported := h.reported + Reported(reports, cfg.localPeer)));
  }

  lemma LookupEndsMoves(s: State, query: nat, id: nat)
    ensures Moves(s, LookupEnds(s, query, id))
  {
    if id in s.calls {
      assert id in s.ledger ==> s.ledger[id := s.ledger[id]] == s.ledger;
    } else {
    }
  }

  lemma CompleteMoves(s: State, id: nat, c: Call)
    requires id in s.calls && Potential(c) + 1 <= Potential(s.calls[id])
    ensures Moves(s, Complete(s, id, c))
  {
    OneCallMoves(s, Complete(s, id, c), id, c, OneMore(s.ledger, id)[id]);
  }

  lemma ResolutionEndsMoves(s: State, cfg: Config, query: nat)
    requires Sound(cfg, s) && query in s.resolutions
    ensures Moves(s, ResolutionEnds(s, query))
  {
    hide Moves;
    var id := s.resolutions[query];
    var s' := s.(resolutions := s.resolutions - {query}, resolutionOf := s.resolutionOf - {id});
    if id in s.calls {
      assert id in s.resolutionOf;
      CompleteMoves(s', id, s.calls[id].(resolving := false));
      StaysPut(s, s');
      MovesTwice(s, s', ResolutionEnds(s, query));
    } else {
      StaysPut(s, s');
    }
  }

  lemma RequestEndsMoves(s: State, cfg: Config, request: nat, failure: nat)
    requires Sound(cfg, s) && request in s.outbound
    ensures Moves(s, RequestEnds(s, request, failure))
  {
    hide Moves;
    var id := s.outbound[request];
    var s' := s.(outbound := s.outbound - {request}, requestOf := s.requestOf - {id});
    if id in s.calls {
      assert id in s.requestOf;
      CompleteMoves(s', id, s.calls[id].(inFlight := false, lastFailure := failure));
      StaysPut(s, s');
      MovesTwice(s, s', RequestEnds(s, request, failure));
    } else {
      StaysPut(s, s');
    }
  }

  // -------- every step, every run

  lemma {:induction false} ExpireMoves(s: State, order: seq<nat>)
    ensures Moves(s, Expire(s, order))
  {
    if order == [] {
      StaysPut(s, s);
    } else {
      var before, id := Expire(s, order[..|order| - 1]), order[|order| - 1];
      ExpireMoves(s, order[..|order| - 1]);
      ExpireOneMoves(before, id);
      MovesTwice(s, before, ExpireOne(before, id));
    }
  }

  lemma ExpireOneMoves(s: State, id: nat)
    ensures Moves(s, ExpireOne(s, id))
  {
    if id in s.calls {
      EndMoves(s, id, TimedOut, RpcFailed(id, s.calls[id].group, s.calls[id].protocol, FAIL_TIMEOUT));
    } else {
      StaysPut(s, s);
    }
  }

  lemma LookupProgressMoves(s: State, cfg: Config, query: nat, last: bool, connected: set<Peer>)
    requires Sound(cfg, s) && query in s.providerLookups
    ensures var id := s.providerLookups[query];
            Moves(s, Advance(if last then LookupEnds(s, query, id) else s, id, connected))
  {
    var id := s.providerLookups[query];
    if last {
      var s' := LookupEnds(s, query, id);
      LookupEndsSound(s, cfg, query);
      LookupEndsMoves(s, query, id);
      AdvanceMoves(s', cfg, id, connected);
      MovesTwice(s, s', Advance(s', id, connected));
    } else {
      AdvanceMoves(s, cfg, id, connected);
    }
  }

  lemma CallProvidersMove(s: State, cfg: Config, query: nat, reports: seq<Report>, last: bool, connected: set<Peer>)
    requires Inv(cfg, s) && query !in s.topicLookups && query !in s.providerQueries && query in s.providerLookups
    ensures Moves(s, ProvidersFound(s, cfg, query, reports, last, connected))
  {
    hide Moves;
    var id := s.providerLookups[query];
    if id in s.calls {
      var s' := Hear(s, cfg, id, reports);
      LookupHistory(cfg, s, query);
      HearSound(s, cfg, id, reports);
      HearMoves(s, cfg, id, reports);
      LookupProgressMoves(s', cfg, query, last, connected);
      MovesTwice(s, s', ProvidersFound(s, cfg, query, reports, last, connected));
    } else {
      LookupProgressMoves(s, cfg, query, last, connected);
    }
  }

  lemma TopicProvidersMove(s: State, cfg: Config, query: nat, reports: seq<Report>, last: bool, connected: set<Peer>)
    requires query in s.topicLookups
    ensures Moves(s, ProvidersFound(s, cfg, query, reports, last, connected))
  {
    if last {
      StaysPut(s, s.(topicLookups := s.topicLookups - {query}));
    } else {
      StaysPut(s, s);
    }
  }

  lemma EmitMoves(s: State, id: nat, events: seq<Event>)
    ensures Moves(s, Emit(s, id, events))
  {
    StaysPut(s, Emit(s, id, events));
  }

  lemma FinishMoves(s: State, s': State, id: nat, reason: nat)
    requires s'.calls == s.calls && s'.ledger == s.ledger
    ensures Moves(s, Finish(s', id, reason))
  {
    StaysPut(s, Finish(s', id, reason));
  }

  lemma SearchProvidersMove(s: State, cfg: Config, query: nat, reports: seq<Report>, last: bool, connected: set<Peer>)
    requires query !in s.topicLookups && query in s.providerQueries
    ensures Moves(s, ProvidersFound(s, cfg, query, reports, last, connected))
  {
    var id := s.providerQueries[query];
    var shown := Emit(s, id, ProviderEvents(cfg, s.book, id, reports));
    EmitMoves(s, id, ProviderEvents(cfg, s.book, id, reports));
    if last {
      FinishMoves(shown, shown.(providerQueries := s.providerQueries - {query}), id, 0);
      MovesTwice(s, shown, ProvidersFound(s, cfg, query, reports, last, connected));
    }
  }

  lemma ProvidersMove(s: State, cfg: Config, query: nat, reports: seq<Report>, last: bool, connected: set<Peer>)
    requires Inv(cfg, s)
    ensures Moves(s, ProvidersFound(s, cfg, query, reports, last, connected))
  {
    if query in s.topicLookups {
      TopicProvidersMove(s, cfg, query, reports, last, connected);
    } else if query in s.providerQueries {
      SearchProvidersMove(s, cfg, query, reports, last, connected);
    } else if query in s.providerLookups {
      CallProvidersMove(s, cfg, query, reports, last, connected);
    } else {
      StaysPut(s, s);
    }
  }

  lemma WalkMoves(s: State, query: nat, events: seq<Event>, connected: set<Peer>)
    requires query !in s.resolutions && query in s.walks
    ensures Moves(s, Closest(s, query, events, connected))
  {
    hide Moves;
    var id, s' := s.walks[query], s.(walks := s.walks - {query});
    StaysPut(s, s');
    EmitMoves(s', id, events);
    MovesTwice(s, s', Emit(s', id, events));
    FinishMoves(Emit(s', id, events), Emit(s', id, events), id, 0);
    MovesTwice(s, Emit(s', id, events), Closest(s, query, events, connected));
  }

  lemma ClosestMoves(s: State, cfg: Config, query: nat, events: seq<Event>, connected: set<Peer>)
    requires Inv(cfg, s)
    ensures Moves(s, Closest(s, query, events, connected))
  {
    hide Moves, Advance, ResolutionEnds, Emit, Finish;
    if query in s.resolutions {
      var s' := ResolutionEnds(s, query);
      ResolutionEndsSound(s, cfg, query);
      ResolutionEndsMoves(s, cfg, query);
      AdvanceMoves(s', cfg, s.resolutions[query], connected);
      MovesTwice(s, s', Advance(s', s.resolutions[query], connected));
    } else if query in s.walks {
      WalkMoves(s, query, events, connected);
    } else {
      StaysPut(s, s);
    }
  }

  lemma FailureMoves(s: State, cfg: Config, request: nat, error: SendError, connected: set<Peer>)
    requires Inv(cfg, s) && request in s.outbound
    ensures Moves(s, Advance(RequestEnds(s, request, FailureOf(error)), s.outbound[request], connected))
  {
    var s' := RequestEnds(s, request, FailureOf(error));
    RequestEndsSound(s, cfg, request, FailureOf(error));
    RequestEndsMoves(s, cfg, request, FailureOf(error));
    AdvanceMoves(s', cfg, s.outbound[request], connected);
    MovesTwice(s, s', Advance(s', s.outbound[request], connected));
  }

  lemma AnswersMove(s: State, id: nat, peer: Peer, frame: Bytes, nowMs: nat, answer: Answer)
    requires id in s.calls
    ensures Moves(s, Answers(s, id, peer, frame, nowMs, answer))
  {
    var c := s.calls[id];
    var s' := s.(failed := s.failed - {peer}, lastSuccess := RememberSuccess(s.lastSuccess, c.group, peer));
    StaysPut(s, s');
    EndMoves(s', id, Answered(peer, frame, nowMs), RpcResponse(id, c.group, answer.node, c.protocol, answer.payload));
    MovesTwice(s, s', Answers(s, id, peer, frame, nowMs, answer));
  }

  lemma RefusalMoves(s: State, cfg: Config, id: nat, peer: Peer, now: Time, connected: set<Peer>)
    requires Sound(cfg, s)
    ensures Moves(s, Advance(s.(failed := RememberFailure(s.failed, peer, now)), id, connected))
  {
    var s' := s.(failed := RememberFailure(s.failed, peer, now));
    FailuresBounded(s.failed, peer, now);
    MemorySound(s, cfg, s'.failed, s.lastSuccess, s.book);
    StaysPut(s, s');
    AdvanceMoves(s', cfg, id, connected);
    MovesTwice(s, s', Advance(s', id, connected));
  }

  lemma ReplyMoves(s: State, cfg: Config, peer: Peer, request: nat, frame: Bytes, nowMs: nat, now: Time,
                   connected: set<Peer>)
    requires Inv(cfg, s)
    ensures Moves(s, Replied(s, cfg, peer, request, frame, nowMs, now, connected))
  {
    hide Moves;
    if request !in s.outbound {
      StaysPut(s, s);
    } else {
      var id, done := s.outbound[request], RequestEnds(s, request, FAIL_REFUSED);
      RequestEndsSound(s, cfg, request, FAIL_REFUSED);
      RequestEndsMoves(s, cfg, request, FAIL_REFUSED);
      if id in s.calls {
        match Accept(cfg.prims, peer, s.calls[id].group, frame, nowMs)
        case Some(answer) =>
          AnswersMove(done, id, peer, frame, nowMs, answer);
          MovesTwice(s, done, Answers(done, id, peer, frame, nowMs, answer));
        case None =>
          RefusalMoves(done, cfg, id, peer, now, connected);
          MovesTwice(s, done, Advance(done.(failed := RememberFailure(s.failed, peer, now)), id, connected));
      }
    }
  }

  lemma StartMoves(s: State, cfg: Config, id: nat, group: Key, node: Option<Key>, protocol: nat,
                   payload: Bytes, deadline: Time, connected: set<Peer>)
    requires Inv(cfg, s) && Unused(s, id) && protocol < |cfg.rpcProtocols|
    ensures Moves(s, StartCall(s, cfg, id, group, node, protocol, payload, deadline, connected))
  {
    var s' := Looking(s, cfg, id, group, node, protocol, payload, deadline);
    LookingSound(s, cfg, id, group, node, protocol, payload, deadline);
    LookingMoves(s, cfg, id, group, node, protocol, payload, deadline);
    AdvanceMoves(s', cfg, id, connected);
    MovesTwice(s, s', Advance(s', id, connected));
  }

  lemma StartBootstrapMoves(s: State, id: nat, started: bool)
    ensures Moves(s, StartBootstrap(s, id, started))
  {
    if started {
      StaysPut(s, StartBootstrap(s, id, true));
    } else {
      StaysPut(s, StartBootstrap(s, id, false));
    }
  }

  lemma BootstrapMoves(s: State, query: nat, ok: bool, last: bool)
    ensures Moves(s, BootstrapProgressed(s, query, ok, last))
  {
    if last && query in s.bootstraps {
      FinishMoves(s, s.(bootstraps := s.bootstraps - {query}), s.bootstraps[query], if ok then 0 else FAIL_TIMEOUT);
    } else {
      StaysPut(s, s);
    }
  }

  lemma ClosestFoundMoves(s: State, cfg: Config, query: nat, found: seq<Found>, connected: set<Peer>)
    requires Inv(cfg, s)
    ensures Moves(s, ClosestFound(s, cfg, query, found, connected))
  {
    hide Moves;
    var walk := if query in s.walks then s.walks[query] else 0;
    var s' := s.(book := LearnAll(s.book, found));
    LearnAllKeepsBook(s.book, found);
    MemorySound(s, cfg, s.failed, s.lastSuccess, s'.book);
    StaysPut(s, s');
    ClosestMoves(s', cfg, query, FoundEvents(cfg, walk, found), connected);
    MovesTwice(s, s', ClosestFound(s, cfg, query, found, connected));
  }

  lemma RequestFailedMoves(s: State, cfg: Config, peer: Peer, request: nat, error: SendError, now: Time,
                           connected: set<Peer>)
    requires Inv(cfg, s)
    ensures Moves(s, RequestFailed(s, peer, request, error, now, connected))
  {
    hide Moves;
    var s' := s.(failed := RememberFailure(s.failed, peer, now));
    FailuresBounded(s.failed, peer, now);
    MemorySound(s, cfg, s'.failed, s.lastSuccess, s.book);
    StaysPut(s, s');
    if request in s.outbound {
      FailureMoves(s', cfg, request, error, connected);
      MovesTwice(s, s', RequestFailed(s, peer, request, error, now, connected));
    }
  }

  /** A command or an event that is not about a call. */
  predicate Elsewhere(step: Step) {
    step.DoWalk? || step.DoFindProviders? || step.DoTopicLookup? || step.OnAddresses? || step.OnInternalQuery?
  }

  lemma ElsewhereMoves(s: State, cfg: Config, step: Step)
    requires Enabled(s, cfg, step) && Elsewhere(step)
    ensures Moves(s, Next(s, cfg, step))
  {
    StaysPut(s, Next(s, cfg, step));
  }

  lemma CallStepMoves(s: State, cfg: Config, step: Step)
    requires Inv(cfg, s) && Enabled(s, cfg, step) && !Elsewhere(step)
    ensures Moves(s, Next(s, cfg, step))
  {
    hide Moves;
    match step
    case DoCall(id, group, node, protocol, payload, deadline, connected) =>
      StartMoves(s, cfg, id, group, node, protocol, payload, deadline, connected);
    case DoBootstrap(id, started) => StartBootstrapMoves(s, id, started);
    case OnTick(now, order) => ExpireMoves(s, order);
    case OnProviders(query, reports, last, connected) => ProvidersMove(s, cfg, query, reports, last, connected);
    case OnClosest(query, found, connected) => ClosestFoundMoves(s, cfg, query, found, connected);
    case OnBootstrap(query, ok, last) => BootstrapMoves(s, query, ok, last);
    case OnFailure(peer, request, error, now, connected) =>
      RequestFailedMoves(s, cfg, peer, request, error, now, connected);
    case OnReply(peer, request, frame, nowMs, now, connected) =>
      ReplyMoves(s, cfg, peer, request, frame, nowMs, now, connected);
  }

  lemma StepMoves(s: State, cfg: Config, step: Step)
    requires Inv(cfg, s) && Enabled(s, cfg, step)
    ensures Moves(s, Next(s, cfg, step))
  {
    if Elsewhere(step) {
      ElsewhereMoves(s, cfg, step);
    } else {
      CallStepMoves(s, cfg, step);
    }
  }

  lemma {:induction false} RunMoves(s: State, cfg: Config, steps: seq<Step>)
    requires Inv(cfg, s) && IsRun(s, cfg, steps)
    ensures Moves(s, After(s, cfg, steps))
    decreases |steps|
  {
    if steps == [] {
      StaysPut(s, s);
    } else {
      var m := Next(s, cfg, steps[0]);
      StepKeepsInv(s, cfg, steps[0]);
      StepMoves(s, cfg, steps[0]);
      RunMoves(m, cfg, steps[1..]);
      MovesTwice(s, m, After(m, cfg, steps[1..]));
    }
  }
}
