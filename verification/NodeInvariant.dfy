/** Every step of the node keeps all of it: tables, entries, books, rights, log, sends, queries, memory. */
module NodeInvariant {
  import opened Types
  import opened AddressBooks
  import opened Calls
  import opened NodeSpec
  import opened CallAccount
  import opened CallTables
  import opened CallEntries
  import opened CallBooks
  import opened CallRights
  import opened NodeLog
  import opened NodeSends
  import opened NodeQueries

  ghost predicate Remembered(s: State) {
    |s.failed| <= MAX_REMEMBERED && |s.lastSuccess| <= MAX_REMEMBERED && ValidBook(s.book)
  }

  ghost predicate Sound(cfg: Config, s: State) {
    && TablesAgree(s)
    && EntriesStarted(s)
    && BooksKept(s.calls, s.ledger)
    && Rightful(cfg, s.ledger) && LookupsUnpinned(s.providerLookups, s.ledger)
    && AllTold(cfg.prims, s.log, s.ledger, s.searches)
    && RequestsRecorded(s.sent, s.ledger) && LookupsRecorded(s.queries, s.ledger)
    && OneKindEach(s) && SearchesRun(s)
    && Remembered(s)
  }

  /** What a live call waits for: one request, one address lookup, or more providers. */
  predicate Waits(c: Call) {
    && !(c.inFlight && c.resolving)
    && (c.inFlight || c.resolving || (c.lookupRunning && c.candidates == []))
  }

  ghost predicate EveryoneWaits(calls: map<nat, Call>) {
    forall id :: id in calls ==> Waits(calls[id])
  }

  /** In the middle of a handler call `x` may have nothing to wait for. */
  ghost predicate OthersWait(calls: map<nat, Call>, x: nat) {
    && (forall id :: id in calls && id != x ==> Waits(calls[id]))
    && (x in calls ==> !(calls[x].inFlight && calls[x].resolving))
  }

  // -------- trying the next candidate

  lemma NextIdsUnused(cfg: Config, s: State)
    requires Sound(cfg, s)
    ensures |s.sent| !in s.outbound && |s.queries| !in s.resolutions && |s.queries| !in s.providerLookups
  {
  }

  lemma LiveHistory(cfg: Config, s: State, id: nat)
    requires Sound(cfg, s) && id in s.calls
    ensures id in s.ledger && s.ledger[id].outcome.Pending? && id !in s.searches
    ensures var c, h := s.calls[id], s.ledger[id]; c.group == h.group && c.protocol == h.protocol && c.frame == h.frame
    ensures s.calls[id].lookupRunning ==> s.ledger[id].pinned.None?
  {
    assert Accounted(s.calls[id], Past(s.ledger, id));
    if s.calls[id].lookupRunning {
      assert id in s.lookupOf;
      assert s.providerLookups[s.lookupOf[id]] == id;
    }
  }

  lemma AskSound(s: State, cfg: Config, id: nat, dialable: set<Peer>)
    requires Sound(cfg, s) && id in s.calls && !s.calls[id].inFlight && !s.calls[id].resolving
    requires Choose(s.calls[id].candidates, s.calls[id].resolved, dialable).choice.Ask?
    ensures Sound(cfg, Act(s, id, s.calls[id], Choose(s.calls[id].candidates, s.calls[id].resolved, dialable)))
  {
    var c := s.calls[id];
    var pick := Choose(c.candidates, c.resolved, dialable);
    var s' := Act(s, id, c, pick);
    NextIdsUnused(cfg, s);
    LiveHistory(cfg, s, id);
    AskKeepsTables(s, id, pick);
    AskKeepsEntries(s, id, pick);
    ActKeepsBooks(s, id, dialable);
    ActKeepsRights(s, cfg, id, c, pick);
    QuietHistory(cfg.prims, s.log, s.ledger, s.searches, id, HistoryAfter(Past(s.ledger, id), pick));
    AskKeepsSends(s, id, c, pick);
    ActLeavesQueries(s, id, c, pick);
    SameQueriesKeep(s, s');
  }

  lemma ResolveSound(s: State, cfg: Config, id: nat, dialable: set<Peer>)
    requires Sound(cfg, s) && id in s.calls && !s.calls[id].inFlight && !s.calls[id].resolving
    requires Choose(s.calls[id].candidates, s.calls[id].resolved, dialable).choice.Resolve?
    ensures Sound(cfg, Act(s, id, s.calls[id], Choose(s.calls[id].candidates, s.calls[id].resolved, dialable)))
  {
    var c := s.calls[id];
    var pick := Choose(c.candidates, c.resolved, dialable);
    NextIdsUnused(cfg, s);
    LiveHistory(cfg, s, id);
    ResolveKeepsTables(s, id, pick);
    ResolveKeepsEntries(s, id, pick);
    ActKeepsBooks(s, id, dialable);
    ActKeepsRights(s, cfg, id, c, pick);
    QuietHistory(cfg.prims, s.log, s.ledger, s.searches, id, HistoryAfter(Past(s.ledger, id), pick));
    ResolveKeepsSends(s, id, c, pick);
    ResolveKeepsQueries(s, id, c, pick);
  }

  lemma NobodySound(s: State, cfg: Config, id: nat, dialable: set<Peer>)
    requires Sound(cfg, s) && id in s.calls && !s.calls[id].inFlight && !s.calls[id].resolving
    requires Choose(s.calls[id].candidates, s.calls[id].resolved, dialable).choice.Nobody?
    ensures Sound(cfg, Act(s, id, s.calls[id], Choose(s.calls[id].candidates, s.calls[id].resolved, dialable)))
  {
    var c := s.calls[id];
    var pick := Choose(c.candidates, c.resolved, dialable);
    NobodyKeepsTables(s, id, pick);
    NobodyKeepsEntries(s, id, pick);
    ActKeepsBooks(s, id, dialable);
    NobodyTells(s, cfg, id, c, pick);
    ActLeavesQueries(s, id, c, pick);
    SameQueriesKeep(s, Act(s, id, c, pick));
    ActLeaves(s, id, c, pick);
  }

  /** What the histories are held against: rights, requests, lookups and the log. */
  ghost predicate HistoriesKept(cfg: Config, s: State) {
    && Rightful(cfg, s.ledger) && LookupsUnpinned(s.providerLookups, s.ledger)
    && RequestsRecorded(s.sent, s.ledger) && LookupsRecorded(s.queries, s.ledger)
    && AllTold(cfg.prims, s.log, s.ledger, s.searches)
  }

  lemma NobodyTells(s: State, cfg: Config, id: nat, c: Call, pick: Pick)
    requires Sound(cfg, s) && id in s.calls && c == s.calls[id] && pick.choice.Nobody?
    ensures HistoriesKept(cfg, Act(s, id, c, pick))
  {
    LiveHistory(cfg, s, id);
    ActKeepsRights(s, cfg, id, c, pick);
    NobodyKeepsSends(s, id, c, pick);
    NobodyTold(s, cfg.prims, id, c, pick);
  }

  lemma NobodyTold(s: State, prims: Primitives, id: nat, c: Call, pick: Pick)
    requires AllTold(prims, s.log, s.ledger, s.searches) && pick.choice.Nobody?
    requires id in s.ledger && s.ledger[id].outcome.Pending?
    requires c.group == s.ledger[id].group && c.protocol == s.ledger[id].protocol
    ensures var s' := Act(s, id, c, pick); AllTold(prims, s'.log, s'.ledger, s'.searches)
  {
    hide AllTold;
    var h := HistoryAfter(Past(s.ledger, id), pick);
    ActLeaves(s, id, c, pick);
    if c.lookupRunning {
      TryShape(s, id, c, pick);
      QuietHistory(prims, s.log, s.ledger, s.searches, id, h);
    } else {
      GiveUpShape(s, id, c, pick);
      LastWord(prims, s.log, s.ledger, s.searches, id, h.(outcome := Exhausted(c.lastFailure)),
               RpcFailed(id, c.group, c.protocol, c.lastFailure));
    }
  }

  lemma NobodyLeftWaits(s: State, id: nat, c: Call, pick: Pick)
    requires OthersWait(s.calls, id) && id in s.calls && c == s.calls[id] && !c.inFlight && !c.resolving
    requires pick.choice.Nobody? ==> pick.rest == []
    ensures EveryoneWaits(Act(s, id, c, pick).calls)
  {
    if pick.choice.Nobody? && !c.lookupRunning {
      GiveUpShape(s, id, c, pick);
    } else {
      TryShape(s, id, c, pick);
      assert Waits(CallAfter(c, pick));
    }
  }

  /** Trying the next candidate keeps everything, and leaves nobody with nothing to wait for. */
  lemma AdvanceSound(s: State, cfg: Config, id: nat, connected: set<Peer>)
    requires Sound(cfg, s) && OthersWait(s.calls, id)
    ensures var s' := Advance(s, id, connected); Sound(cfg, s') && EveryoneWaits(s'.calls)
  {
    if id in s.calls && !s.calls[id].inFlight && !s.calls[id].resolving {
      var c := s.calls[id];
      var dialable := connected + s.book.addresses.Keys;
      var pick := Choose(c.candidates, c.resolved, dialable);
      ChooseSplits(c.candidates, c.resolved, dialable);
      NobodyLeftWaits(s, id, c, pick);
      match pick.choice {
        case Ask(_) => AskSound(s, cfg, id, dialable);
        case Resolve(_) => ResolveSound(s, cfg, id, dialable);
        case Nobody => NobodySound(s, cfg, id, dialable);
      }
    }
  }

  // -------- the other parts of a handler

  /** The books of an outcome that is not exhaustion, and its event. */
  lemma EndSound(s: State, cfg: Config, id: nat, outcome: Outcome, event: Event)
    requires Sound(cfg, s) && id in s.calls && (outcome.TimedOut? || outcome.Answered?)
    requires event.id == id
    requires AnsweredRightly(cfg, s.ledger[id].(outcome := outcome))
    requires Told(cfg.prims, id, s.ledger[id].(outcome := outcome)) == [event]
    ensures Sound(cfg, End(s, id, outcome, event))
  {
    var h := s.ledger[id].(outcome := outcome);
    LiveHistory(cfg, s, id);
    EndKeepsTables(s, id, outcome, event);
    EndKeepsEntries(s, id, outcome, event);
    EndKeepsBooks(s, id, outcome, event);
    EndKeepsRights(s, cfg, id, outcome, event);
    LastWord(cfg.prims, s.log, s.ledger, s.searches, id, h, event);
    SameSends(s.sent, s.queries, s.ledger, id, h);
    SameQueriesKeep(s, End(s, id, outcome, event));
  }

  lemma LookingSound(s: State, cfg: Config, id: nat, group: Key, node: Option<Key>, protocol: nat,
                     payload: Bytes, deadline: Time)
    requires Sound(cfg, s) && Unused(s, id) && protocol < |cfg.rpcProtocols|
    ensures Sound(cfg, Looking(s, cfg, id, group, node, protocol, payload, deadline))
  {
    var s' := Looking(s, cfg, id, group, node, protocol, payload, deadline);
    NextIdsUnused(cfg, s);
    LookingKeepsTables(s, cfg, id, group, node, protocol, payload, deadline);
    LookingKeepsEntries(s, cfg, id, group, node, protocol, payload, deadline);
    LookingKeepsBooks(s, cfg, id, group, node, protocol, payload, deadline);
    LookingKeepsRights(s, cfg, id, group, node, protocol, payload, deadline);
    NewHistory(cfg.prims, s.log, s.ledger, s.searches, id, s'.ledger[id]);
    NewSends(s.sent, s.queries, s.ledger, id, s'.ledger[id]);
    OtherQuery(s.queries, s'.ledger, ProvidersForCall(group));
    if node.Some? {
      SameQueriesKeep(s, s');
    } else {
      LookingKeepsQueries(s, cfg, id, group, node, protocol, payload, deadline);
    }
  }

  lemma HearSound(s: State, cfg: Config, id: nat, reports: seq<Report>)
    requires Sound(cfg, s) && id in s.calls && s.ledger[id].pinned.None?
    ensures Sound(cfg, Hear(s, cfg, id, reports))
  {
    var h := s.ledger[id].(reported := s.ledger[id].reported + Reported(reports, cfg.localPeer));
    LiveHistory(cfg, s, id);
    HearKeepsTables(s, cfg, id, reports);
    HearKeepsEntries(s, cfg, id, reports);
    HearKeepsBooks(s, cfg, id, reports);
    HearKeepsRights(s, cfg, id, reports);
    QuietHistory(cfg.prims, s.log, s.ledger, s.searches, id, h);
    SameSends(s.sent, s.queries, s.ledger, id, h);
    SameQueriesKeep(s, Hear(s, cfg, id, reports));
  }

  lemma LookupEndsSound(s: State, cfg: Config, query: nat)
    requires Sound(cfg, s) && query in s.providerLookups
    ensures Sound(cfg, LookupEnds(s, query, s.providerLookups[query]))
  {
    if s.providerLookups[query] in s.calls {
      LiveLookupEndsSound(s, cfg, query);
    } else {
      StaleLookupEndsSound(s, cfg, query);
    }
  }

  lemma LiveLookupEndsSound(s: State, cfg: Config, query: nat)
    requires Sound(cfg, s) && query in s.providerLookups && s.providerLookups[query] in s.calls
    ensures Sound(cfg, LookupEnds(s, query, s.providerLookups[query]))
  {
    var id := s.providerLookups[query];
    LookupEndsKeepsEntries(s, query, id);
    LookupEndsKeepsBooks(s, query, id);
    LiveLookupEndsKeepsTables(s, query);
    LookupEndsKeepsQueries(s, query, id);
  }

  lemma StaleLookupEndsSound(s: State, cfg: Config, query: nat)
    requires Sound(cfg, s) && query in s.providerLookups && s.providerLookups[query] !in s.calls
    ensures Sound(cfg, LookupEnds(s, query, s.providerLookups[query]))
  {
    var id := s.providerLookups[query];
    LookupEndsKeepsEntries(s, query, id);
    LookupEndsKeepsBooks(s, query, id);
    StaleLookupEndsKeepsTables(s, query);
    LookupEndsKeepsQueries(s, query, id);
  }

  lemma CompleteSound(s: State, cfg: Config, id: nat, c: Call)
    requires Sound(cfg, s) && id in s.calls
    ensures var s' := Complete(s, id, c);
            && Rightful(cfg, s'.ledger) && LookupsUnpinned(s'.providerLookups, s'.ledger)
            && AllTold(cfg.prims, s'.log, s'.ledger, s'.searches)
            && RequestsRecorded(s'.sent, s'.ledger) && LookupsRecorded(s'.queries, s'.ledger)
  {
    var h := OneMore(s.ledger, id)[id];
    LiveHistory(cfg, s, id);
    CompleteKeepsRights(s, cfg, id, c);
    QuietHistory(cfg.prims, s.log, s.ledger, s.searches, id, h);
    SameSends(s.sent, s.queries, s.ledger, id, h);
  }

  lemma ResolutionEndsSound(s: State, cfg: Config, query: nat)
    requires Sound(cfg, s) && query in s.resolutions
    ensures Sound(cfg, ResolutionEnds(s, query))
  {
    if s.resolutions[query] in s.calls {
      LiveResolutionEndsSound(s, cfg, query);
    } else {
      StaleResolutionEndsSound(s, cfg, query);
    }
  }

  lemma LiveResolutionEndsSound(s: State, cfg: Config, query: nat)
    requires Sound(cfg, s) && query in s.resolutions && s.resolutions[query] in s.calls
    ensures Sound(cfg, ResolutionEnds(s, query))
  {
    var id := s.resolutions[query];
    assert id in s.resolutionOf;
    CompleteSound(s, cfg, id, s.calls[id].(resolving := false));
    LiveResolutionEndsKeepsEntries(s, query);
    LiveResolutionEndsKeepsTables(s, query);
    ResolutionCompletesBooks(s, id);
    ResolutionEndsKeepsQueries(s, query);
  }

  lemma StaleResolutionEndsSound(s: State, cfg: Config, query: nat)
    requires Sound(cfg, s) && query in s.resolutions && s.resolutions[query] !in s.calls
    ensures Sound(cfg, ResolutionEnds(s, query))
  {
    StaleResolutionEndsKeepsEntries(s, query);
    StaleResolutionEndsKeepsTables(s, query);
    ResolutionEndsKeepsQueries(s, query);
  }

  lemma RequestEndsSound(s: State, cfg: Config, request: nat, failure: nat)
    requires Sound(cfg, s) && request in s.outbound
    ensures Sound(cfg, RequestEnds(s, request, failure))
  {
    if s.outbound[request] in s.calls {
      LiveRequestEndsSound(s, cfg, request, failure);
    } else {
      StaleRequestEndsSound(s, cfg, request, failure);
    }
  }

  lemma LiveRequestEndsSound(s: State, cfg: Config, request: nat, failure: nat)
    requires Sound(cfg, s) && request in s.outbound && s.outbound[request] in s.calls
    ensures Sound(cfg, RequestEnds(s, request, failure))
  {
    var id := s.outbound[request];
    assert id in s.requestOf;
    CompleteSound(s, cfg, id, s.calls[id].(inFlight := false, lastFailure := failure));
    LiveRequestEndsKeepsEntries(s, request, failure);
    LiveRequestEndsKeepsTables(s, request, failure);
    RequestCompletesBooks(s, id, failure);
    RequestEndsKeepsQueries(s, request, failure);
  }

  lemma StaleRequestEndsSound(s: State, cfg: Config, request: nat, failure: nat)
    requires Sound(cfg, s) && request in s.outbound && s.outbound[request] !in s.calls
    ensures Sound(cfg, RequestEnds(s, request, failure))
  {
    StaleRequestEndsKeepsEntries(s, request, failure);
    StaleRequestEndsKeepsTables(s, request, failure);
    RequestEndsKeepsQueries(s, request, failure);
  }
}
