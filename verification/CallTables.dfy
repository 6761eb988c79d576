/** The tables of outstanding requests and queries agree with the flags of the live calls, after every step. */
module CallTables {
  import opened Types
  import opened Calls
  import opened NodeSpec

  // -------- one table against what the live calls wait for

  /** A live call waits for exactly the entries of the table under it, so there is at most one. */
  ghost predicate Mirrors(table: map<nat, nat>, waits: map<nat, nat>, live: set<nat>) {
    && (forall id {:trigger waits[id]} :: id in waits ==> waits[id] in table)
    && (forall k {:trigger table[k]} :: k in table && table[k] in live ==> table[k] in waits)
    && forall id, k {:trigger waits[id], table[k]} ::
         id in waits && k in table ==> (waits[id] == k <==> (table[k] == id && id in live))
  }

  lemma MirrorsWithEntry(table: map<nat, nat>, waits: map<nat, nat>, live: set<nat>, k: nat, id: nat)
    requires Mirrors(table, waits, live) && k !in table && id !in waits
    requires id in live || forall k' :: k' in table ==> table[k'] != id
    ensures Mirrors(table[k := id], waits[id := k], live + {id})
  {
  }

  lemma MirrorsWithoutEntry(table: map<nat, nat>, waits: map<nat, nat>, live: set<nat>, k: nat)
    requires Mirrors(table, waits, live) && k in table
    ensures Mirrors(table - {k}, waits - {table[k]}, live)
  {
  }

  lemma MirrorsWithoutCall(table: map<nat, nat>, waits: map<nat, nat>, live: set<nat>, id: nat)
    requires Mirrors(table, waits, live)
    ensures Mirrors(table, waits - {id}, live - {id})
  {
  }

  lemma MirrorsWithCall(table: map<nat, nat>, waits: map<nat, nat>, live: set<nat>, id: nat)
    requires Mirrors(table, waits, live)
    requires id in live || forall k :: k in table ==> table[k] != id
    ensures Mirrors(table, waits, live + {id})
  {
  }

  // -------- the three tables of the node

  /** A flag is up exactly when the call waits for an entry of that table. */
  ghost predicate FlagsMatch(calls: map<nat, Call>, requestOf: map<nat, nat>, resolutionOf: map<nat, nat>,
                             lookupOf: map<nat, nat>) {
    forall id :: id in calls ==>
      && (calls[id].inFlight <==> id in requestOf)
      && (calls[id].resolving <==> id in resolutionOf)
      && (calls[id].lookupRunning <==> id in lookupOf)
  }

  ghost predicate TablesAgree(s: State) {
    && Mirrors(s.outbound, s.requestOf, s.calls.Keys)
    && Mirrors(s.resolutions, s.resolutionOf, s.calls.Keys)
    && Mirrors(s.providerLookups, s.lookupOf, s.calls.Keys)
    && FlagsMatch(s.calls, s.requestOf, s.resolutionOf, s.lookupOf)
  }

  // -------- what a handler does at its end

  lemma EndKeepsTables(s: State, id: nat, outcome: Outcome, event: Event)
    requires TablesAgree(s)
    ensures TablesAgree(End(s, id, outcome, event))
  {
    assert (s.calls - {id}).Keys == s.calls.Keys - {id};
    MirrorsWithoutCall(s.outbound, s.requestOf, s.calls.Keys, id);
    MirrorsWithoutCall(s.resolutions, s.resolutionOf, s.calls.Keys, id);
    MirrorsWithoutCall(s.providerLookups, s.lookupOf, s.calls.Keys, id);
  }

  /** The flags of one call, after a request or an address lookup was started for it. */
  lemma FlagsAfterTry(calls: map<nat, Call>, requestOf: map<nat, nat>, resolutionOf: map<nat, nat>,
                      lookupOf: map<nat, nat>, id: nat, c: Call, k: nat)
    requires FlagsMatch(calls, requestOf, resolutionOf, lookupOf) && id in calls
    requires c.lookupRunning == calls[id].lookupRunning
    ensures c.inFlight && c.resolving == calls[id].resolving ==>
              FlagsMatch(calls[id := c], requestOf[id := k], resolutionOf, lookupOf)
    ensures c.resolving && c.inFlight == calls[id].inFlight ==>
              FlagsMatch(calls[id := c], requestOf, resolutionOf[id := k], lookupOf)
  {
  }

  lemma AskKeepsTables(s: State, id: nat, pick: Pick)
    requires TablesAgree(s) && id in s.calls && !s.calls[id].inFlight && pick.choice.Ask?
    requires |s.sent| !in s.outbound
    ensures TablesAgree(Act(s, id, s.calls[id], pick))
  {
    var c := CallAfter(s.calls[id], pick);
    NotYetWaiting(s, id);
    hide Mirrors, FlagsMatch, HistoryAfter, Past;
    KeysAfterUpdate(s.calls, id, c);
    MirrorsWithEntry(s.outbound, s.requestOf, s.calls.Keys, |s.sent|, id);
    FlagsAfterTry(s.calls, s.requestOf, s.resolutionOf, s.lookupOf, id, c, |s.sent|);
  }

  lemma ResolveKeepsTables(s: State, id: nat, pick: Pick)
    requires TablesAgree(s) && id in s.calls && !s.calls[id].resolving && pick.choice.Resolve?
    requires |s.queries| !in s.resolutions
    ensures TablesAgree(Act(s, id, s.calls[id], pick))
  {
    var c := CallAfter(s.calls[id], pick);
    NotYetWaiting(s, id);
    hide Mirrors, FlagsMatch, HistoryAfter, Past;
    KeysAfterUpdate(s.calls, id, c);
    MirrorsWithEntry(s.resolutions, s.resolutionOf, s.calls.Keys, |s.queries|, id);
    FlagsAfterTry(s.calls, s.requestOf, s.resolutionOf, s.lookupOf, id, c, |s.queries|);
  }

  lemma NotYetWaiting(s: State, id: nat)
    requires TablesAgree(s) && id in s.calls
    ensures !s.calls[id].inFlight ==> id !in s.requestOf
    ensures !s.calls[id].resolving ==> id !in s.resolutionOf
  {
  }

  lemma NobodyKeepsTables(s: State, id: nat, pick: Pick)
    requires TablesAgree(s) && id in s.calls && pick.choice.Nobody?
    ensures TablesAgree(Act(s, id, s.calls[id], pick))
  {
    if s.calls[id].lookupRunning {
      IdleKeepsTables(s, id, pick);
    } else {
      GiveUpKeepsTables(s, id, pick);
    }
  }

  lemma IdleKeepsTables(s: State, id: nat, pick: Pick)
    requires TablesAgree(s) && id in s.calls && pick.choice.Nobody? && s.calls[id].lookupRunning
    ensures TablesAgree(Act(s, id, s.calls[id], pick))
  {
    KeysAfterUpdate(s.calls, id, CallAfter(s.calls[id], pick));
  }

  lemma GiveUpKeepsTables(s: State, id: nat, pick: Pick)
    requires TablesAgree(s) && id in s.calls && pick.choice.Nobody? && !s.calls[id].lookupRunning
    ensures TablesAgree(Act(s, id, s.calls[id], pick))
  {
    var c, h := s.calls[id], HistoryAfter(Past(s.ledger, id), pick);
    EndKeepsTables(s.(ledger := s.ledger[id := h]), id, Exhausted(c.lastFailure),
                   RpcFailed(id, c.group, c.protocol, c.lastFailure));
  }

  lemma KeysAfterUpdate(calls: map<nat, Call>, id: nat, c: Call)
    requires id in calls
    ensures calls[id := c].Keys == calls.Keys == calls.Keys + {id}
  {
  }

  // -------- what a handler does first

  /** The tables know nothing of a call yet. */
  ghost predicate Unheard(s: State, id: nat) {
    && id !in s.calls
    && (forall k :: k in s.outbound ==> s.outbound[k] != id)
    && (forall k :: k in s.resolutions ==> s.resolutions[k] != id)
    && (forall k :: k in s.providerLookups ==> s.providerLookups[k] != id)
  }

  lemma LookingKeepsTables(s: State, cfg: Config, id: nat, group: Key, node: Option<Key>, protocol: nat,
                           payload: Bytes, deadline: Time)
    requires TablesAgree(s) && |s.queries| !in s.providerLookups && protocol < |cfg.rpcProtocols| && Unheard(s, id)
    ensures TablesAgree(Looking(s, cfg, id, group, node, protocol, payload, deadline))
  {
    var s' := Looking(s, cfg, id, group, node, protocol, payload, deadline);
    var call := s'.calls[id];
    MirrorsWithCall(s.outbound, s.requestOf, s.calls.Keys, id);
    MirrorsWithCall(s.resolutions, s.resolutionOf, s.calls.Keys, id);
    if node.Some? {
      MirrorsWithCall(s.providerLookups, s.lookupOf, s.calls.Keys, id);
    } else {
      MirrorsWithEntry(s.providerLookups, s.lookupOf, s.calls.Keys, |s.queries|, id);
    }
    FlagsWithCall(s.calls, s.requestOf, s.resolutionOf, s.lookupOf, id, call, |s.queries|);
    assert s.calls[id := call].Keys == s.calls.Keys + {id};
  }

  lemma FlagsWithCall(calls: map<nat, Call>, requestOf: map<nat, nat>, resolutionOf: map<nat, nat>,
                      lookupOf: map<nat, nat>,
                      id: nat, c: Call, query: nat)
    requires FlagsMatch(calls, requestOf, resolutionOf, lookupOf)
    requires id !in requestOf && id !in resolutionOf && id !in lookupOf && !c.inFlight && !c.resolving
    ensures FlagsMatch(calls[id := c], requestOf, resolutionOf,
                       if c.lookupRunning then lookupOf[id := query] else lookupOf)
  {
  }

  lemma {:induction false} QueueingIsQuiet(
      c: Call, reports: seq<Report>, local: Peer, lastSuccess: map<Key, Peer>, failed: map<Peer, Time>)
    ensures var c' := QueueReports(c, reports, local, lastSuccess, failed);
            c' == c.(seen := c'.seen, candidates := c'.candidates)
  {
    if reports != [] {
      QueueingIsQuiet(c, reports[..|reports| - 1], local, lastSuccess, failed);
    }
  }

  lemma HearKeepsTables(s: State, cfg: Config, id: nat, reports: seq<Report>)
    requires TablesAgree(s) && id in s.calls
    ensures TablesAgree(Hear(s, cfg, id, reports))
  {
    var c := QueueReports(s.calls[id], reports, cfg.localPeer, s.lastSuccess, s.failed);
    QueueingIsQuiet(s.calls[id], reports, cfg.localPeer, s.lastSuccess, s.failed);
    KeysAfterUpdate(s.calls, id, c);
  }

  lemma LiveLookupEndsKeepsTables(s: State, query: nat)
    requires TablesAgree(s) && query in s.providerLookups && s.providerLookups[query] in s.calls
    ensures TablesAgree(LookupEnds(s, query, s.providerLookups[query]))
  {
    var id := s.providerLookups[query];
    MirrorsWithoutEntry(s.providerLookups, s.lookupOf, s.calls.Keys, query);
    KeysAfterUpdate(s.calls, id, s.calls[id].(lookupRunning := false));
  }

  lemma StaleLookupEndsKeepsTables(s: State, query: nat)
    requires TablesAgree(s) && query in s.providerLookups && s.providerLookups[query] !in s.calls
    ensures TablesAgree(LookupEnds(s, query, s.providerLookups[query]))
  {
    MirrorsWithoutEntry(s.providerLookups, s.lookupOf, s.calls.Keys, query);
  }

  lemma LiveResolutionEndsKeepsTables(s: State, query: nat)
    requires TablesAgree(s) && query in s.resolutions && s.resolutions[query] in s.calls
    ensures TablesAgree(ResolutionEnds(s, query))
  {
    var id := s.resolutions[query];
    MirrorsWithoutEntry(s.resolutions, s.resolutionOf, s.calls.Keys, query);
    KeysAfterUpdate(s.calls, id, s.calls[id].(resolving := false));
  }

  lemma StaleResolutionEndsKeepsTables(s: State, query: nat)
    requires TablesAgree(s) && query in s.resolutions && s.resolutions[query] !in s.calls
    ensures TablesAgree(ResolutionEnds(s, query))
  {
    MirrorsWithoutEntry(s.resolutions, s.resolutionOf, s.calls.Keys, query);
  }

  lemma LiveRequestEndsKeepsTables(s: State, request: nat, failure: nat)
    requires TablesAgree(s) && request in s.outbound && s.outbound[request] in s.calls
    ensures TablesAgree(RequestEnds(s, request, failure))
  {
    var id := s.outbound[request];
    MirrorsWithoutEntry(s.outbound, s.requestOf, s.calls.Keys, request);
    KeysAfterUpdate(s.calls, id, s.calls[id].(inFlight := false, lastFailure := failure));
  }

  lemma StaleRequestEndsKeepsTables(s: State, request: nat, failure: nat)
    requires TablesAgree(s) && request in s.outbound && s.outbound[request] !in s.calls
    ensures TablesAgree(RequestEnds(s, request, failure))
  {
    MirrorsWithoutEntry(s.outbound, s.requestOf, s.calls.Keys, request);
  }
}
