/** Each handler keeps everything and leaves every live call with something to wait for; so does every run. */
module NodeSteps {
  import opened Types
  import opened Multiaddrs
  import opened AddressBooks
  import opened Calls
  import opened NodeSpec
  import opened CallAccount
  import opened CallTables
  import opened CallEntries
  import opened CallBooks
  import opened CallRights
  import opened NodeLog
  import opened NodeSends
  import opened NodeQueries
  import opened NodeInvariant

  ghost predicate Inv(cfg: Config, s: State) {
    Sound(cfg, s) && EveryoneWaits(s.calls)
  }

  // -------- memory

  lemma FailuresBounded(failed: map<Peer, Time>, peer: Peer, now: Time)
    requires |failed| <= MAX_REMEMBERED
    ensures |RememberFailure(failed, peer, now)| <= MAX_REMEMBERED
  {
    var recent := if |failed| >= MAX_REMEMBERED then StillPenalized(failed, now) else failed;
    var room := if |recent| >= MAX_REMEMBERED then map[] else recent;
    assert room[peer := now].Keys == room.Keys + {peer};
  }

  lemma FewerKeys(failed: map<Peer, Time>, peer: Peer)
    ensures |failed - {peer}| <= |failed|
  {
    assert (failed - {peer}).Keys == failed.Keys - {peer};
    assert |failed.Keys - {peer}| <= |failed.Keys|;
  }

  lemma SuccessesBounded(lastSuccess: map<Key, Peer>, group: Key, peer: Peer)
    requires |lastSuccess| <= MAX_REMEMBERED
    ensures |RememberSuccess(lastSuccess, group, peer)| <= MAX_REMEMBERED
  {
    var room := if |lastSuccess| >= MAX_REMEMBERED then map[] else lastSuccess;
    assert room[group := peer].Keys == room.Keys + {group};
  }

  lemma {:induction false} LearnKeepsBook(b: Book, peer: Peer, addresses: seq<Multiaddr>)
    requires ValidBook(b)
    ensures ValidBook(Learn(b, peer, addresses))
  {
    if addresses != [] {
      var before := Learn(b, peer, addresses[..|addresses| - 1]);
      LearnKeepsBook(b, peer, addresses[..|addresses| - 1]);
      AddKeepsBook(before, peer, addresses[|addresses| - 1]);
    }
  }

  lemma {:induction false} LearnAllKeepsBook(b: Book, found: seq<Found>)
    requires ValidBook(b)
    ensures ValidBook(LearnAll(b, found))
  {
    if found != [] {
      LearnAllKeepsBook(b, found[..|found| - 1]);
      LearnKeepsBook(LearnAll(b, found[..|found| - 1]), found[|found| - 1].peer, found[|found| - 1].addresses);
    }
  }

  /** What is remembered about peers and groups is nobody's business but its own. */
  lemma MemorySound(s: State, cfg: Config, failed: map<Peer, Time>, lastSuccess: map<Key, Peer>, book: Book)
    requires Sound(cfg, s)
    requires |failed| <= MAX_REMEMBERED && |lastSuccess| <= MAX_REMEMBERED && ValidBook(book)
    ensures Sound(cfg, s.(failed := failed, lastSuccess := lastSuccess, book := book))
  {
    var s' := s.(failed := failed, lastSuccess := lastSuccess, book := book);
    SameQueriesKeep(s, s');
  }

  // -------- calls

  lemma StartSound(s: State, cfg: Config, id: nat, group: Key, node: Option<Key>, protocol: nat,
                   payload: Bytes, deadline: Time, connected: set<Peer>)
    requires Inv(cfg, s) && Unused(s, id) && protocol < |cfg.rpcProtocols|
    ensures Inv(cfg, StartCall(s, cfg, id, group, node, protocol, payload, deadline, connected))
  {
    hide Sound, Looking, NodeSpec.Advance;
    LookingSound(s, cfg, id, group, node, protocol, payload, deadline);
    LookingOthersWait(s, cfg, id, group, node, protocol, payload, deadline);
    AdvanceSound(Looking(s, cfg, id, group, node, protocol, payload, deadline), cfg, id, connected);
  }

  lemma LookingOthersWait(s: State, cfg: Config, id: nat, group: Key, node: Option<Key>, protocol: nat,
                          payload: Bytes, deadline: Time)
    requires EveryoneWaits(s.calls) && protocol < |cfg.rpcProtocols|
    ensures OthersWait(Looking(s, cfg, id, group, node, protocol, payload, deadline).calls, id)
  {
  }

  lemma ExpireOneSound(s: State, cfg: Config, id: nat)
    requires Inv(cfg, s)
    ensures Inv(cfg, ExpireOne(s, id))
  {
    if id in s.calls {
      TimeOutSound(s, cfg, id);
    }
  }

  lemma TimeOutSound(s: State, cfg: Config, id: nat)
    requires Inv(cfg, s) && id in s.calls
    ensures Inv(cfg, ExpireOne(s, id))
  {
    hide Sound;
    LiveHistory(cfg, s, id);
    EndSound(s, cfg, id, TimedOut, RpcFailed(id, s.calls[id].group, s.calls[id].protocol, FAIL_TIMEOUT));
  }

  lemma {:induction false} ExpireSound(s: State, cfg: Config, order: seq<nat>)
    requires Inv(cfg, s)
    ensures Inv(cfg, Expire(s, order))
  {
    if order != [] {
      ExpireSound(s, cfg, order[..|order| - 1]);
      ExpireOneSound(Expire(s, order[..|order| - 1]), cfg, order[|order| - 1]);
    }
  }

  lemma LookupOthersWait(s: State, query: nat, id: nat)
    requires OthersWait(s.calls, id)
    ensures OthersWait(LookupEnds(s, query, id).calls, id)
  {
    if id in s.calls {
    } else {
    }
  }

  lemma LookupProgressSound(s: State, cfg: Config, query: nat, last: bool, connected: set<Peer>)
    requires Sound(cfg, s) && query in s.providerLookups && OthersWait(s.calls, s.providerLookups[query])
    ensures var id := s.providerLookups[query];
            Inv(cfg, Advance(if last then LookupEnds(s, query, id) else s, id, connected))
  {
    var id := s.providerLookups[query];
    if last {
      LookupEndsSound(s, cfg, query);
      LookupOthersWait(s, query, id);
      AdvanceSound(LookupEnds(s, query, id), cfg, id, connected);
    } else {
      AdvanceSound(s, cfg, id, connected);
    }
  }

  lemma HearOthersWait(s: State, cfg: Config, id: nat, reports: seq<Report>)
    requires EveryoneWaits(s.calls) && id in s.calls
    ensures OthersWait(Hear(s, cfg, id, reports).calls, id)
  {
    QueueingIsQuiet(s.calls[id], reports, cfg.localPeer, s.lastSuccess, s.failed);
  }

  /** Only a call to a group has a provider lookup. */
  lemma LookupHistory(cfg: Config, s: State, query: nat)
    requires Sound(cfg, s) && query in s.providerLookups && s.providerLookups[query] in s.calls
    ensures s.providerLookups[query] in s.ledger && s.ledger[s.providerLookups[query]].pinned.None?
  {
    LiveHistory(cfg, s, s.providerLookups[query]);
  }

  lemma CallProvidersSound(s: State, cfg: Config, query: nat, reports: seq<Report>, last: bool, connected: set<Peer>)
    requires Inv(cfg, s) && query !in s.topicLookups && query !in s.providerQueries && query in s.providerLookups
    ensures Inv(cfg, ProvidersFound(s, cfg, query, reports, last, connected))
  {
    var id := s.providerLookups[query];
    if id in s.calls {
      LookupHistory(cfg, s, query);
      HearSound(s, cfg, id, reports);
      HearOthersWait(s, cfg, id, reports);
      LookupProgressSound(Hear(s, cfg, id, reports), cfg, query, last, connected);
    } else {
      LookupProgressSound(s, cfg, query, last, connected);
    }
  }

  lemma ResolutionSound(s: State, cfg: Config, query: nat, events: seq<Event>, connected: set<Peer>)
    requires Inv(cfg, s) && query in s.resolutions
    ensures Inv(cfg, Closest(s, query, events, connected))
  {
    ResolutionEndsSound(s, cfg, query);
    ResolvedOthersWait(s, query);
    AdvanceSound(ResolutionEnds(s, query), cfg, s.resolutions[query], connected);
  }

  lemma ResolvedOthersWait(s: State, query: nat)
    requires EveryoneWaits(s.calls) && query in s.resolutions
    ensures OthersWait(ResolutionEnds(s, query).calls, s.resolutions[query])
  {
    if s.resolutions[query] in s.calls {
    } else {
    }
  }

  lemma RequestOthersWait(s: State, request: nat, failure: nat)
    requires EveryoneWaits(s.calls) && request in s.outbound
    ensures OthersWait(RequestEnds(s, request, failure).calls, s.outbound[request])
  {
    if s.outbound[request] in s.calls {
    } else {
    }
  }

  lemma FailureSound(s: State, cfg: Config, peer: Peer, request: nat, error: SendError, now: Time, connected: set<Peer>)
    requires Inv(cfg, s)
    ensures Inv(cfg, RequestFailed(s, peer, request, error, now, connected))
  {
    var s' := s.(failed := RememberFailure(s.failed, peer, now));
    FailuresBounded(s.failed, peer, now);
    MemorySound(s, cfg, s'.failed, s.lastSuccess, s.book);
    if request in s.outbound {
      RequestEndsSound(s', cfg, request, FailureOf(error));
      RequestOthersWait(s', request, FailureOf(error));
      AdvanceSound(RequestEnds(s', request, FailureOf(error)), cfg, s.outbound[request], connected);
    }
  }

  lemma AnswerSound(s: State, cfg: Config, id: nat, peer: Peer, frame: Bytes, nowMs: nat, answer: Answer)
    requires Sound(cfg, s) && OthersWait(s.calls, id) && id in s.calls
    requires Accept(cfg.prims, peer, s.calls[id].group, frame, nowMs) == Some(answer)
    requires peer in Past(s.ledger, id).asked
    ensures Inv(cfg, Answers(s, id, peer, frame, nowMs, answer))
  {
    var c := s.calls[id];
    LiveHistory(cfg, s, id);
    FewerKeys(s.failed, peer);
    SuccessesBounded(s.lastSuccess, c.group, peer);
    var s' := s.(failed := s.failed - {peer}, lastSuccess := RememberSuccess(s.lastSuccess, c.group, peer));
    MemorySound(s, cfg, s'.failed, s'.lastSuccess, s.book);
    EndSound(s', cfg, id, Answered(peer, frame, nowMs),
             RpcResponse(id, c.group, answer.node, c.protocol, answer.payload));
  }

  lemma RefusalSound(s: State, cfg: Config, id: nat, peer: Peer, now: Time, connected: set<Peer>)
    requires Sound(cfg, s) && OthersWait(s.calls, id)
    ensures Inv(cfg, Advance(s.(failed := RememberFailure(s.failed, peer, now)), id, connected))
  {
    FailuresBounded(s.failed, peer, now);
    MemorySound(s, cfg, RememberFailure(s.failed, peer, now), s.lastSuccess, s.book);
    AdvanceSound(s.(failed := RememberFailure(s.failed, peer, now)), cfg, id, connected);
  }

  /** The peer an outstanding request went to is one its call asked. */
  lemma ReplierWasAsked(cfg: Config, s: State, request: nat, failure: nat)
    requires Sound(cfg, s) && request in s.outbound && s.outbound[request] in s.calls
    ensures request < |s.sent|
    ensures var s', id := RequestEnds(s, request, failure), s.outbound[request];
            && id in s'.calls && s'.calls[id].group == s.calls[id].group
            && s.sent[request].peer in Past(s'.ledger, id).asked
  {
  }

  lemma CompletionLeaves(s: State, id: nat, c: Call)
    requires id in s.calls
    ensures Complete(s, id, c).failed == s.failed && id in Complete(s, id, c).calls
  {
  }

  lemma RequestEndLeaves(s: State, request: nat, failure: nat)
    requires request in s.outbound
    ensures RequestEnds(s, request, failure).failed == s.failed
    ensures s.outbound[request] in RequestEnds(s, request, failure).calls <==> s.outbound[request] in s.calls
  {
    var id := s.outbound[request];
    var s' := s.(outbound := s.outbound - {request}, requestOf := s.requestOf - {id});
    if id in s.calls {
      CompletionLeaves(s', id, s.calls[id].(inFlight := false, lastFailure := failure));
    } else {
      assert RequestEnds(s, request, failure) == s';
    }
  }

  lemma NobodyElseToWait(calls: map<nat, Call>, id: nat)
    requires OthersWait(calls, id) && id !in calls
    ensures EveryoneWaits(calls)
  {
  }

  lemma ReplySound(s: State, cfg: Config, peer: Peer, request: nat, frame: Bytes, nowMs: nat, now: Time,
                   connected: set<Peer>)
    requires Inv(cfg, s) && (request < |s.sent| ==> s.sent[request].peer == peer)
    ensures Inv(cfg, Replied(s, cfg, peer, request, frame, nowMs, now, connected))
  {
    hide Sound, OthersWait, RequestEnds, NodeSpec.Advance, Accept, NodeSpec.Answers;
    if request in s.outbound {
      var id, done := s.outbound[request], RequestEnds(s, request, FAIL_REFUSED);
      RequestEndsSound(s, cfg, request, FAIL_REFUSED);
      RequestOthersWait(s, request, FAIL_REFUSED);
      RequestEndLeaves(s, request, FAIL_REFUSED);
      if id in s.calls {
        ReplierWasAsked(cfg, s, request, FAIL_REFUSED);
        match Accept(cfg.prims, peer, s.calls[id].group, frame, nowMs)
        case Some(answer) => AnswerSound(done, cfg, id, peer, frame, nowMs, answer);
        case None => RefusalSound(done, cfg, id, peer, now, connected);
      } else {
        NobodyElseToWait(done.calls, id);
      }
    }
  }

  // -------- searches and other queries

  /** Nothing about calls changed, and no query was forgotten. */
  ghost predicate CallsLeft(s: State, s': State) {
    && s'.calls == s.calls && s'.ledger == s.ledger && s'.outbound == s.outbound && s'.sent == s.sent
    && s'.providerLookups == s.providerLookups && s'.resolutions == s.resolutions
    && s'.requestOf == s.requestOf && s'.resolutionOf == s.resolutionOf && s'.lookupOf == s.lookupOf
    && s'.failed == s.failed && s'.lastSuccess == s.lastSuccess && s'.book == s.book
    && |s.queries| <= |s'.queries|
  }

  lemma TablesLeft(s: State, s': State)
    requires TablesAgree(s) && CallsLeft(s, s')
    ensures TablesAgree(s')
  {
  }

  lemma EntriesLeft(s: State, s': State)
    requires EntriesStarted(s) && CallsLeft(s, s')
    ensures EntriesStarted(s')
  {
  }

  lemma DhtChangeSound(s: State, s': State, cfg: Config)
    requires Sound(cfg, s) && CallsLeft(s, s')
    requires LookupsRecorded(s'.queries, s'.ledger)
    requires AllTold(cfg.prims, s'.log, s'.ledger, s'.searches)
    requires OneKindEach(s') && SearchesRun(s')
    ensures Sound(cfg, s')
  {
    TablesLeft(s, s');
    EntriesLeft(s, s');
  }

  lemma StartBootstrapSound(s: State, cfg: Config, id: nat, started: bool)
    requires Inv(cfg, s) && Unused(s, id)
    ensures Inv(cfg, StartBootstrap(s, id, started))
  {
    var s' := StartBootstrap(s, id, started);
    NewSearch(cfg.prims, s.log, s.ledger, s.searches, id, |s.queries|);
    if started {
      BootstrapKeepsQueries(s, id);
      OtherQuery(s.queries, s.ledger, Bootstrap);
      DhtChangeSound(s, s', cfg);
    } else {
      SearchChangeKeepsQueries(s, id, Search(|s.queries|, [], Some(FAIL_UNREACHABLE)), s'.log);
      DhtChangeSound(s, s', cfg);
    }
  }

  lemma StartWalkSound(s: State, cfg: Config, id: nat)
    requires Inv(cfg, s) && Unused(s, id)
    ensures Inv(cfg, StartWalk(s, id))
  {
    hide TablesAgree, EntriesStarted, BooksKept, Rightful, LookupsUnpinned, AllTold, RequestsRecorded, LookupsRecorded,
         OneKindEach, SearchesRun, Remembered;
    NewSearch(cfg.prims, s.log, s.ledger, s.searches, id, |s.queries|);
    WalkKeepsQueries(s, id);
    OtherQuery(s.queries, s.ledger, ClosestToRandom);
    DhtChangeSound(s, StartWalk(s, id), cfg);
  }

  lemma FindProvidersSound(s: State, cfg: Config, id: nat, key: Key)
    requires Inv(cfg, s) && Unused(s, id)
    ensures Inv(cfg, FindProviders(s, id, key))
  {
    hide TablesAgree, EntriesStarted, BooksKept, Rightful, LookupsUnpinned, AllTold, RequestsRecorded, LookupsRecorded,
         OneKindEach, SearchesRun, Remembered;
    NewSearch(cfg.prims, s.log, s.ledger, s.searches, id, |s.queries|);
    FindProvidersKeepsQueries(s, id, key);
    OtherQuery(s.queries, s.ledger, ProvidersForSearch(key));
    DhtChangeSound(s, FindProviders(s, id, key), cfg);
  }

  lemma LookUpTopicSound(s: State, cfg: Config, key: Key)
    requires Inv(cfg, s)
    ensures Inv(cfg, LookUpTopic(s, key))
  {
    hide TablesAgree, EntriesStarted, BooksKept, Rightful, LookupsUnpinned, AllTold, RequestsRecorded, LookupsRecorded,
         OneKindEach, SearchesRun, Remembered;
    TopicLookupKeepsQueries(s, key);
    OtherQuery(s.queries, s.ledger, ProvidersForTopic(key));
    DhtChangeSound(s, LookUpTopic(s, key), cfg);
  }

  lemma InternalSound(s: State, cfg: Config)
    requires Inv(cfg, s)
    ensures Inv(cfg, s.(queries := s.queries + [Internal]))
  {
    hide TablesAgree, EntriesStarted, BooksKept, Rightful, LookupsUnpinned, AllTold, RequestsRecorded, LookupsRecorded,
         OneKindEach, SearchesRun, Remembered;
    InternalKeepsQueries(s);
    OtherQuery(s.queries, s.ledger, Internal);
    DhtChangeSound(s, s.(queries := s.queries + [Internal]), cfg);
  }

  lemma TopicEndSound(s: State, cfg: Config, query: nat)
    requires Inv(cfg, s)
    ensures Inv(cfg, s.(topicLookups := s.topicLookups - {query}))
  {
    TopicEndKeepsQueries(s, query);
    DhtChangeSound(s, s.(topicLookups := s.topicLookups - {query}), cfg);
  }

  /** A search shows what it found. */
  lemma EmitSound(s: State, cfg: Config, id: nat, events: seq<Event>)
    requires Inv(cfg, s) && id in s.searches && s.searches[id].result.None?
    requires forall e :: e in events ==> e.Discovered? && e.id == id
    ensures Inv(cfg, Emit(s, id, events))
  {
    var search := s.searches[id].(found := s.searches[id].found + events);
    EmitShape(s, id, events);
    SearchSays(cfg.prims, s.log, s.ledger, s.searches, id, events, search);
    SearchChangeKeepsQueries(s, id, search, s.log + events);
    DhtChangeSound(s, s.(searches := s.searches[id := search], log := s.log + events), cfg);
  }

  lemma EmitShape(s: State, id: nat, events: seq<Event>)
    requires id in s.searches && s.searches[id].result.None?
    ensures var search := s.searches[id].(found := s.searches[id].found + events);
            && Emit(s, id, events) == s.(searches := s.searches[id := search], log := s.log + events)
            && Shown(id, search) == Shown(id, s.searches[id]) + events
  {
  }

  /** A search ends: one result, and its query is in no table any more. */
  lemma FinishSound(s: State, cfg: Config, id: nat, query: nat, reason: nat)
    requires Inv(cfg, s) && InATable(s, id, query)
    ensures Inv(cfg, Finish(Without(s, query), id, reason))
  {
    FinishTells(s, cfg, id, query, reason);
    SearchEndKeepsQueries(s, id, query, reason);
    DhtChangeSound(s, Finish(Without(s, query), id, reason), cfg);
  }

  lemma FinishTells(s: State, cfg: Config, id: nat, query: nat, reason: nat)
    requires AllTold(cfg.prims, s.log, s.ledger, s.searches) && LookupsRecorded(s.queries, s.ledger)
    requires SearchesRun(s) && InATable(s, id, query)
    ensures var s' := Finish(Without(s, query), id, reason);
            && AllTold(cfg.prims, s'.log, s'.ledger, s'.searches) && LookupsRecorded(s'.queries, s'.ledger)
            && CallsLeft(s, s')
  {
    RunningSearch(s, id, query);
    FinishShape(s, id, query, reason);
    SearchSays(cfg.prims, s.log, s.ledger, s.searches, id, [DhtResult(id, reason)],
               s.searches[id].(result := Some(reason)));
  }

  lemma FinishShape(s: State, id: nat, query: nat, reason: nat)
    requires id in s.searches && s.searches[id].result.None?
    ensures var s' := Finish(Without(s, query), id, reason);
            && CallsLeft(s, s') && s'.queries == s.queries
            && s'.log == s.log + [DhtResult(id, reason)]
            && s'.searches == s.searches[id := s.searches[id].(result := Some(reason))]
            && Shown(id, s'.searches[id]) == Shown(id, s.searches[id]) + [DhtResult(id, reason)]
            && s'.searches[id].found == s.searches[id].found
  {
  }

  lemma SearchProvidersSound(s: State, cfg: Config, query: nat, reports: seq<Report>, last: bool)
    requires Inv(cfg, s) && query in s.providerQueries
    ensures var id := s.providerQueries[query];
            var shown := Emit(s, id, ProviderEvents(cfg, s.book, id, reports));
            Inv(cfg, if last then Finish(shown.(providerQueries := s.providerQueries - {query}), id, 0) else shown)
  {
    var id := s.providerQueries[query];
    var events := ProviderEvents(cfg, s.book, id, reports);
    RunningSearch(s, id, query);
    EmitSound(s, cfg, id, events);
    if last {
      EmitShape(s, id, events);
      InOneSearchTable(Emit(s, id, events), query);
      FinishSound(Emit(s, id, events), cfg, id, query, 0);
    }
  }

  lemma WalkSound(s: State, cfg: Config, query: nat, events: seq<Event>, connected: set<Peer>)
    requires Inv(cfg, s) && query in s.walks && query !in s.resolutions
    requires forall e :: e in events ==> e.Discovered? && e.id == s.walks[query]
    ensures Inv(cfg, Closest(s, query, events, connected))
  {
    var id := s.walks[query];
    RunningSearch(s, id, query);
    EmitShape(s, id, events);
    EmitSound(s, cfg, id, events);
    InOneSearchTable(Emit(s, id, events), query);
    FinishSound(Emit(s, id, events), cfg, id, query, 0);
    assert Emit(s.(walks := s.walks - {query}), id, events) == Emit(s, id, events).(walks := s.walks - {query});
  }

  lemma BootstrapSound(s: State, cfg: Config, query: nat, ok: bool, last: bool)
    requires Inv(cfg, s)
    ensures Inv(cfg, BootstrapProgressed(s, query, ok, last))
  {
    if last && query in s.bootstraps {
      InOneSearchTable(s, query);
      FinishSound(s, cfg, s.bootstraps[query], query, if ok then 0 else FAIL_TIMEOUT);
    }
  }

  lemma ProvidersSound(s: State, cfg: Config, query: nat, reports: seq<Report>, last: bool, connected: set<Peer>)
    requires Inv(cfg, s)
    ensures Inv(cfg, ProvidersFound(s, cfg, query, reports, last, connected))
  {
    if query in s.topicLookups {
      TopicEndSound(s, cfg, query);
    } else if query in s.providerQueries {
      SearchProvidersSound(s, cfg, query, reports, last);
    } else if query in s.providerLookups {
      CallProvidersSound(s, cfg, query, reports, last, connected);
    }
  }

  lemma ClosestSound(s: State, cfg: Config, query: nat, found: seq<Found>, connected: set<Peer>)
    requires Inv(cfg, s)
    ensures Inv(cfg, ClosestFound(s, cfg, query, found, connected))
  {
    var walk := if query in s.walks then s.walks[query] else 0;
    var s', events := s.(book := LearnAll(s.book, found)), FoundEvents(cfg, walk, found);
    LearnAllKeepsBook(s.book, found);
    MemorySound(s, cfg, s.failed, s.lastSuccess, s'.book);
    if query in s.resolutions {
      ResolutionSound(s', cfg, query, events, connected);
    } else if query in s.walks {
      WalkSound(s', cfg, query, events, connected);
    }
  }

  lemma AddressesSound(s: State, cfg: Config, peer: Peer, addresses: seq<Multiaddr>)
    requires Inv(cfg, s)
    ensures Inv(cfg, s.(book := Learn(s.book, peer, addresses)))
  {
    LearnKeepsBook(s.book, peer, addresses);
    MemorySound(s, cfg, s.failed, s.lastSuccess, Learn(s.book, peer, addresses));
  }

  // -------- steps and runs

  /** Every step the environment may take keeps the invariant. */
  lemma StepKeepsInv(s: State, cfg: Config, step: Step)
    requires Inv(cfg, s) && Enabled(s, cfg, step)
    ensures Inv(cfg, Next(s, cfg, step))
  {
    match step
    case DoCall(id, group, node, protocol, payload, deadline, connected) =>
      StartSound(s, cfg, id, group, node, protocol, payload, deadline, connected);
    case DoBootstrap(id, started) => StartBootstrapSound(s, cfg, id, started);
    case DoWalk(id) => StartWalkSound(s, cfg, id);
    case DoFindProviders(id, key) => FindProvidersSound(s, cfg, id, key);
    case DoTopicLookup(key) => LookUpTopicSound(s, cfg, key);
    case OnTick(now, order) => ExpireSound(s, cfg, order);
    case OnAddresses(peer, addresses) => AddressesSound(s, cfg, peer, addresses);
    case OnProviders(query, reports, last, connected) => ProvidersSound(s, cfg, query, reports, last, connected);
    case OnClosest(query, found, connected) => ClosestSound(s, cfg, query, found, connected);
    case OnBootstrap(query, ok, last) => BootstrapSound(s, cfg, query, ok, last);
    case OnInternalQuery => InternalSound(s, cfg);
    case OnFailure(peer, request, error, now, connected) => FailureSound(s, cfg, peer, request, error, now, connected);
    case OnReply(peer, request, frame, nowMs, now, connected) =>
      ReplySound(s, cfg, peer, request, frame, nowMs, now, connected);
  }

  lemma InitialInv(cfg: Config)
    ensures Inv(cfg, INITIAL)
  {
    InitialTables();
    InitialBooks(cfg);
    hide TablesAgree, EntriesStarted, BooksKept, Rightful, LookupsUnpinned, AllTold, RequestsRecorded, LookupsRecorded,
         OneKindEach, SearchesRun, Remembered;
  }

  lemma InitialTables()
    ensures TablesAgree(INITIAL) && EntriesStarted(INITIAL)
    ensures OneKindEach(INITIAL) && SearchesRun(INITIAL) && Remembered(INITIAL)
  {
  }

  lemma InitialBooks(cfg: Config)
    ensures BooksKept(INITIAL.calls, INITIAL.ledger)
    ensures Rightful(cfg, INITIAL.ledger) && LookupsUnpinned(INITIAL.providerLookups, INITIAL.ledger)
    ensures AllTold(cfg.prims, INITIAL.log, INITIAL.ledger, INITIAL.searches)
    ensures RequestsRecorded(INITIAL.sent, INITIAL.ledger) && LookupsRecorded(INITIAL.queries, INITIAL.ledger)
  {
  }

  lemma {:induction false} RunKeepsInv(s: State, cfg: Config, steps: seq<Step>)
    requires Inv(cfg, s) && IsRun(s, cfg, steps)
    ensures Inv(cfg, After(s, cfg, steps))
    decreases |steps|
  {
    if steps != [] {
      StepKeepsInv(s, cfg, steps[0]);
      RunKeepsInv(Next(s, cfg, steps[0]), cfg, steps[1..]);
    }
  }
}
