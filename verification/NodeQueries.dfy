/** Every DHT query is of one kind, and each table holds one kind: a query id is routed to one table at most. */
module NodeQueries {
  import opened Types
  import opened Calls
  import opened NodeSpec

  ghost predicate Tabled(table: set<nat>, queries: seq<Query>, kind: Query -> bool) {
    forall q :: q in table ==> q < |queries| && kind(queries[q])
  }

  predicate IsCallLookup(q: Query) { q.ProvidersForCall? }
  predicate IsSearchLookup(q: Query) { q.ProvidersForSearch? }
  predicate IsTopicLookup(q: Query) { q.ProvidersForTopic? }
  predicate IsResolution(q: Query) { q.ClosestTo? }
  predicate IsWalk(q: Query) { q.ClosestToRandom? }
  predicate IsBootstrap(q: Query) { q.Bootstrap? }

  ghost predicate OneKindEach(s: State) {
    && Tabled(s.providerLookups.Keys, s.queries, IsCallLookup)
    && Tabled(s.providerQueries.Keys, s.queries, IsSearchLookup)
    && Tabled(s.topicLookups.Keys, s.queries, IsTopicLookup)
    && Tabled(s.resolutions.Keys, s.queries, IsResolution)
    && Tabled(s.walks.Keys, s.queries, IsWalk)
    && Tabled(s.bootstraps.Keys, s.queries, IsBootstrap)
  }

  lemma TabledLater(table: set<nat>, queries: seq<Query>, kind: Query -> bool, query: Query)
    requires Tabled(table, queries, kind)
    ensures Tabled(table, queries + [query], kind)
    ensures kind(query) ==> Tabled(table + {|queries|}, queries + [query], kind)
  {
  }

  lemma TabledFewer(table: set<nat>, queries: seq<Query>, kind: Query -> bool, fewer: set<nat>)
    requires Tabled(table, queries, kind) && fewer <= table
    ensures Tabled(fewer, queries, kind)
  {
  }

  /** One more query, perhaps entered into the table of its kind. */
  lemma QueryAdded(s: State, query: Query)
    requires OneKindEach(s)
    ensures OneKindEach(s.(queries := s.queries + [query]))
  {
    TabledLater(s.providerLookups.Keys, s.queries, IsCallLookup, query);
    TabledLater(s.providerQueries.Keys, s.queries, IsSearchLookup, query);
    TabledLater(s.topicLookups.Keys, s.queries, IsTopicLookup, query);
    TabledLater(s.resolutions.Keys, s.queries, IsResolution, query);
    TabledLater(s.walks.Keys, s.queries, IsWalk, query);
    TabledLater(s.bootstraps.Keys, s.queries, IsBootstrap, query);
  }

  // -------- searches

  /** A search in a table has no result yet and the table names the query made for it. */
  ghost predicate RunningIn(table: map<nat, nat>, searches: map<nat, Search>) {
    forall q :: q in table ==> table[q] in searches && searches[table[q]].result.None? && searches[table[q]].query == q
  }

  ghost predicate InATable(s: State, id: nat, q: nat) {
    || (q in s.bootstraps && s.bootstraps[q] == id)
    || (q in s.walks && s.walks[q] == id)
    || (q in s.providerQueries && s.providerQueries[q] == id)
  }

  /** A search runs exactly as long as its query is in a table. */
  ghost predicate SearchesRun(s: State) {
    && RunningIn(s.bootstraps, s.searches)
    && RunningIn(s.walks, s.searches)
    && RunningIn(s.providerQueries, s.searches)
    && forall id :: id in s.searches && s.searches[id].result.None? ==> InATable(s, id, s.searches[id].query)
  }

  // -------- calls do not disturb searches

  /** The part of the state that is about DHT queries. */
  ghost predicate SameQueries(s: State, s': State) {
    && s'.queries == s.queries && s'.searches == s.searches
    && s'.providerLookups == s.providerLookups && s'.resolutions == s.resolutions
    && s'.topicLookups == s.topicLookups && s'.providerQueries == s.providerQueries
    && s'.walks == s.walks && s'.bootstraps == s.bootstraps
  }

  lemma SameQueriesKeep(s: State, s': State)
    requires OneKindEach(s) && SearchesRun(s) && SameQueries(s, s')
    ensures OneKindEach(s') && SearchesRun(s')
  {
    assert forall id, q :: InATable(s', id, q) <==> InATable(s, id, q);
  }

  lemma ActLeavesQueries(s: State, id: nat, c: Call, pick: Pick)
    requires !pick.choice.Resolve?
    ensures SameQueries(s, Act(s, id, c, pick))
  {
    if pick.choice.Ask? {
    } else if c.lookupRunning {
    } else {
    }
  }

  lemma ResolveKeepsQueries(s: State, id: nat, c: Call, pick: Pick)
    requires OneKindEach(s) && SearchesRun(s) && pick.choice.Resolve?
    ensures OneKindEach(Act(s, id, c, pick)) && SearchesRun(Act(s, id, c, pick))
  {
    var query := ClosestTo(id, pick.choice.peer);
    QueryAdded(s, query);
    TabledLater(s.resolutions.Keys, s.queries, IsResolution, query);
    assert s.resolutions[|s.queries| := id].Keys == s.resolutions.Keys + {|s.queries|};
  }

  lemma LookingKeepsQueries(s: State, cfg: Config, id: nat, group: Key, node: Option<Key>, protocol: nat,
                            payload: Bytes, deadline: Time)
    requires OneKindEach(s) && SearchesRun(s) && protocol < |cfg.rpcProtocols|
    ensures var s' := Looking(s, cfg, id, group, node, protocol, payload, deadline); OneKindEach(s') && SearchesRun(s')
  {
    hide OneKindEach, SearchesRun;
    if node.Some? {
      SameQueriesKeep(s, Looking(s, cfg, id, group, node, protocol, payload, deadline));
    } else {
      GroupLookupKeepsQueries(s, id, group);
      SameQueriesKeep(s.(providerLookups := s.providerLookups[|s.queries| := id],
                         queries := s.queries + [ProvidersForCall(group)]),
                      Looking(s, cfg, id, group, node, protocol, payload, deadline));
    }
  }

  lemma GroupLookupKeepsQueries(s: State, id: nat, group: Key)
    requires OneKindEach(s) && SearchesRun(s)
    ensures var s' := s.(providerLookups := s.providerLookups[|s.queries| := id],
                         queries := s.queries + [ProvidersForCall(group)]);
            OneKindEach(s') && SearchesRun(s')
  {
    QueryAdded(s, ProvidersForCall(group));
    TabledLater(s.providerLookups.Keys, s.queries, IsCallLookup, ProvidersForCall(group));
    assert s.providerLookups[|s.queries| := id].Keys == s.providerLookups.Keys + {|s.queries|};
  }

  lemma LookupEndsKeepsQueries(s: State, query: nat, id: nat)
    requires OneKindEach(s) && SearchesRun(s)
    ensures OneKindEach(LookupEnds(s, query, id)) && SearchesRun(LookupEnds(s, query, id))
  {
    ForgettingKeepsQueries(s, s.providerLookups - {query}, s.resolutions, s.topicLookups);
    SameQueriesKeep(s.(providerLookups := s.providerLookups - {query}), LookupEnds(s, query, id));
  }

  lemma ResolutionEndsKeepsQueries(s: State, query: nat)
    requires OneKindEach(s) && SearchesRun(s) && query in s.resolutions
    ensures OneKindEach(ResolutionEnds(s, query)) && SearchesRun(ResolutionEnds(s, query))
  {
    var id := s.resolutions[query];
    var s' := s.(resolutions := s.resolutions - {query}, resolutionOf := s.resolutionOf - {id});
    ForgettingKeepsQueries(s, s.providerLookups, s.resolutions - {query}, s.topicLookups);
    SameQueriesKeep(s.(resolutions := s.resolutions - {query}), s');
    if id in s.calls {
      SameQueriesKeep(s', Complete(s', id, s.calls[id].(resolving := false)));
    }
  }

  lemma RequestEndsKeepsQueries(s: State, request: nat, failure: nat)
    requires OneKindEach(s) && SearchesRun(s) && request in s.outbound
    ensures OneKindEach(RequestEnds(s, request, failure)) && SearchesRun(RequestEnds(s, request, failure))
  {
    var id := s.outbound[request];
    var s' := s.(outbound := s.outbound - {request}, requestOf := s.requestOf - {id});
    SameQueriesKeep(s, s');
    if id in s.calls {
      SameQueriesKeep(s', Complete(s', id, s.calls[id].(inFlight := false, lastFailure := failure)));
    }
  }

  /** Entries of calls may always be forgotten. */
  lemma ForgettingKeepsQueries(s: State, providerLookups: map<nat, nat>, resolutions: map<nat, nat>,
                               topicLookups: map<nat, Key>)
    requires OneKindEach(s) && SearchesRun(s)
    requires providerLookups.Keys <= s.providerLookups.Keys && resolutions.Keys <= s.resolutions.Keys
    requires topicLookups.Keys <= s.topicLookups.Keys
    ensures var s' := s.(providerLookups := providerLookups, resolutions := resolutions, topicLookups := topicLookups);
            OneKindEach(s') && SearchesRun(s')
  {
    TabledFewer(s.providerLookups.Keys, s.queries, IsCallLookup, providerLookups.Keys);
    TabledFewer(s.resolutions.Keys, s.queries, IsResolution, resolutions.Keys);
    TabledFewer(s.topicLookups.Keys, s.queries, IsTopicLookup, topicLookups.Keys);
  }

  lemma TopicEndKeepsQueries(s: State, query: nat)
    requires OneKindEach(s) && SearchesRun(s)
    ensures var s' := s.(topicLookups := s.topicLookups - {query}); OneKindEach(s') && SearchesRun(s')
  {
    ForgettingKeepsQueries(s, s.providerLookups, s.resolutions, s.topicLookups - {query});
    assert s.(providerLookups := s.providerLookups, resolutions := s.resolutions,
              topicLookups := s.topicLookups - {query})
           == s.(topicLookups := s.topicLookups - {query});
  }

  lemma RunningSearch(s: State, id: nat, q: nat)
    requires SearchesRun(s) && InATable(s, id, q)
    ensures id in s.searches && s.searches[id].result.None? && s.searches[id].query == q
  {
  }

  lemma TopicLookupKeepsQueries(s: State, key: Key)
    requires OneKindEach(s) && SearchesRun(s)
    ensures OneKindEach(LookUpTopic(s, key)) && SearchesRun(LookUpTopic(s, key))
  {
    QueryAdded(s, ProvidersForTopic(key));
    TabledLater(s.topicLookups.Keys, s.queries, IsTopicLookup, ProvidersForTopic(key));
    assert s.topicLookups[|s.queries| := key].Keys == s.topicLookups.Keys + {|s.queries|};
  }

  lemma InternalKeepsQueries(s: State)
    requires OneKindEach(s) && SearchesRun(s)
    ensures var s' := s.(queries := s.queries + [Internal]); OneKindEach(s') && SearchesRun(s')
  {
    QueryAdded(s, Internal);
  }

  // -------- searches start, find and end

  lemma RunningWith(table: map<nat, nat>, searches: map<nat, Search>, id: nat, search: Search, bound: nat)
    requires RunningIn(table, searches) && id !in searches && search.result.None?
    requires bound !in table
    ensures RunningIn(table, searches[id := search])
    ensures search.query == bound ==> RunningIn(table[bound := id], searches[id := search])
  {
  }

  lemma SearchStarts(s: State, id: nat)
    requires OneKindEach(s) && SearchesRun(s) && id !in s.searches
    ensures var n := |s.queries|;
            var searches := s.searches[id := Search(n, [], None)];
            && n !in s.bootstraps && n !in s.walks && n !in s.providerQueries
            && RunningIn(s.bootstraps, searches) && RunningIn(s.bootstraps[n := id], searches)
            && RunningIn(s.walks, searches) && RunningIn(s.walks[n := id], searches)
            && RunningIn(s.providerQueries, searches) && RunningIn(s.providerQueries[n := id], searches)
  {
    var search := Search(|s.queries|, [], None);
    RunningWith(s.bootstraps, s.searches, id, search, |s.queries|);
    RunningWith(s.walks, s.searches, id, search, |s.queries|);
    RunningWith(s.providerQueries, s.searches, id, search, |s.queries|);
  }

  lemma BootstrapKeepsQueries(s: State, id: nat)
    requires OneKindEach(s) && SearchesRun(s) && id !in s.searches
    ensures OneKindEach(StartBootstrap(s, id, true)) && SearchesRun(StartBootstrap(s, id, true))
  {
    var n, s' := |s.queries|, StartBootstrap(s, id, true);
    SearchStarts(s, id);
    QueryAdded(s, Bootstrap);
    TabledLater(s.bootstraps.Keys, s.queries, IsBootstrap, Bootstrap);
    assert s.bootstraps[n := id].Keys == s.bootstraps.Keys + {n};
    AllRunningAfterStart(s, s', id);
  }

  lemma WalkKeepsQueries(s: State, id: nat)
    requires OneKindEach(s) && SearchesRun(s) && id !in s.searches
    ensures OneKindEach(StartWalk(s, id)) && SearchesRun(StartWalk(s, id))
  {
    var n, s' := |s.queries|, StartWalk(s, id);
    SearchStarts(s, id);
    QueryAdded(s, ClosestToRandom);
    TabledLater(s.walks.Keys, s.queries, IsWalk, ClosestToRandom);
    assert s.walks[n := id].Keys == s.walks.Keys + {n};
    AllRunningAfterStart(s, s', id);
  }

  lemma FindProvidersKeepsQueries(s: State, id: nat, key: Key)
    requires OneKindEach(s) && SearchesRun(s) && id !in s.searches
    ensures OneKindEach(FindProviders(s, id, key)) && SearchesRun(FindProviders(s, id, key))
  {
    var n, s' := |s.queries|, FindProviders(s, id, key);
    SearchStarts(s, id);
    QueryAdded(s, ProvidersForSearch(key));
    TabledLater(s.providerQueries.Keys, s.queries, IsSearchLookup, ProvidersForSearch(key));
    assert s.providerQueries[n := id].Keys == s.providerQueries.Keys + {n};
    AllRunningAfterStart(s, s', id);
  }

  lemma AllRunningAfterStart(s: State, s': State, id: nat)
    requires SearchesRun(s) && id !in s.searches
    requires s'.searches == s.searches[id := Search(|s.queries|, [], None)] && InATable(s', id, |s.queries|)
    requires forall i, q :: InATable(s, i, q) && q != |s.queries| ==> InATable(s', i, q)
    requires |s.queries| !in s.bootstraps && |s.queries| !in s.walks && |s.queries| !in s.providerQueries
    ensures forall i :: i in s'.searches && s'.searches[i].result.None? ==> InATable(s', i, s'.searches[i].query)
  {
  }

  /** A search that found something, or could not even start. */
  lemma SearchChangeKeepsQueries(s: State, id: nat, search: Search, log: seq<Event>)
    requires OneKindEach(s) && SearchesRun(s)
    requires if id in s.searches then search.query == s.searches[id].query && search.result == s.searches[id].result
             else search.result.Some?
    ensures var s' := s.(searches := s.searches[id := search], log := log); OneKindEach(s') && SearchesRun(s')
  {
    var s' := s.(searches := s.searches[id := search], log := log);
    assert forall i, q :: InATable(s', i, q) <==> InATable(s, i, q);
  }

  lemma StillRunning(table: map<nat, nat>, searches: map<nat, Search>, id: nat, search: Search, gone: nat)
    requires RunningIn(table, searches) && id in searches && searches[id].query == gone
    ensures gone !in table ==> RunningIn(table, searches[id := search])
    ensures RunningIn(table - {gone}, searches[id := search])
  {
  }

  /** The tables without the query `q`. */
  function Without(s: State, q: nat): State {
    s.(bootstraps := s.bootstraps - {q}, walks := s.walks - {q}, providerQueries := s.providerQueries - {q})
  }

  /** A query in one of the search tables is in none of the others. */
  lemma InOneSearchTable(s: State, q: nat)
    requires OneKindEach(s)
    ensures q in s.bootstraps ==> Without(s, q) == s.(bootstraps := s.bootstraps - {q})
    ensures q in s.walks ==> Without(s, q) == s.(walks := s.walks - {q})
    ensures q in s.providerQueries ==> Without(s, q) == s.(providerQueries := s.providerQueries - {q})
  {
    assert q in s.bootstraps ==> q !in s.walks && q !in s.providerQueries;
    assert q in s.walks ==> q !in s.bootstraps && q !in s.providerQueries;
    assert q in s.providerQueries ==> q !in s.bootstraps && q !in s.walks;
    assert q !in s.bootstraps ==> s.bootstraps - {q} == s.bootstraps;
    assert q !in s.walks ==> s.walks - {q} == s.walks;
    assert q !in s.providerQueries ==> s.providerQueries - {q} == s.providerQueries;
  }

  /** The end of a search: its query leaves its table, its result is set. */
  lemma SearchEndKeepsQueries(s: State, id: nat, q: nat, reason: nat)
    requires OneKindEach(s) && SearchesRun(s) && InATable(s, id, q)
    ensures OneKindEach(Finish(Without(s, q), id, reason)) && SearchesRun(Finish(Without(s, q), id, reason))
  {
    var s', ended := Finish(Without(s, q), id, reason), s.searches[id].(result := Some(reason));
    StillRunning(s.bootstraps, s.searches, id, ended, q);
    StillRunning(s.walks, s.searches, id, ended, q);
    StillRunning(s.providerQueries, s.searches, id, ended, q);
    TabledFewer(s.bootstraps.Keys, s.queries, IsBootstrap, s'.bootstraps.Keys);
    TabledFewer(s.walks.Keys, s.queries, IsWalk, s'.walks.Keys);
    TabledFewer(s.providerQueries.Keys, s.queries, IsSearchLookup, s'.providerQueries.Keys);
    OthersStillInATable(s, s', id, q, ended);
  }

  lemma OthersStillInATable(s: State, s': State, id: nat, q: nat, ended: Search)
    requires OneKindEach(s) && SearchesRun(s) && InATable(s, id, q) && ended.result.Some?
    requires s'.searches == s.searches[id := ended]
    requires s'.bootstraps == s.bootstraps - {q} && s'.walks == s.walks - {q}
    requires s'.providerQueries == s.providerQueries - {q}
    ensures forall i :: i in s'.searches && s'.searches[i].result.None? ==> InATable(s', i, s'.searches[i].query)
  {
    forall i | i in s'.searches && s'.searches[i].result.None?
      ensures InATable(s', i, s'.searches[i].query)
    {
      var q' := s.searches[i].query;
      assert i != id && InATable(s, i, q');
      assert q' != q by {
        if q' == q {
          OneSearchPerQuery(s, id, i, q);
        }
      }
    }
  }

  lemma OneSearchPerQuery(s: State, id: nat, i: nat, q: nat)
    requires OneKindEach(s) && InATable(s, id, q) && InATable(s, i, q)
    ensures i == id
  {
  }
}
