/**
  * The node itself: its tables are fields, and its handlers change them in place. Each handler does
  * exactly what NodeSpec says of the state before it. The calls are values in their table.
  */
module Nodes {
  import opened Types
  import opened Multiaddrs
  import opened AddressBooks
  import opened Calls
  import opened NodeSpec
  import Wire

  class Node {
    const cfg: Config
    const book: AddressBook

    var calls: map<nat, Call>
    var outbound: map<nat, nat>
    var providerLookups: map<nat, nat>
    var resolutions: map<nat, nat>
    var failed: map<Peer, Time>
    var lastSuccess: map<Key, Peer>
    var bootstraps: map<nat, nat>
    var walks: map<nat, nat>
    var providerQueries: map<nat, nat>
    var topicLookups: map<nat, Key>

    // the swarm numbers requests and queries as they come; events go to the caller's queue
    var sent: seq<Sent>
    var queries: seq<Query>
    var log: seq<Event>

    /** The abstract value: the fields above and the histories that only the proofs look at. */
    ghost var state: State

    ghost predicate Valid()
      reads this, book
    {
      && state.calls == calls && state.outbound == outbound && state.providerLookups == providerLookups
      && state.resolutions == resolutions && state.failed == failed && state.lastSuccess == lastSuccess
      && state.bootstraps == bootstraps && state.walks == walks && state.providerQueries == providerQueries
      && state.topicLookups == topicLookups && state.book == book.Model()
      && state.sent == sent && state.queries == queries && state.log == log
    }

    constructor (config: Config)
      ensures Valid() && state == INITIAL && cfg == config && fresh(book)
    {
      cfg := config;
      book := new AddressBook();
      calls, outbound, providerLookups, resolutions := map[], map[], map[], map[];
      failed, lastSuccess, bootstraps, walks, providerQueries, topicLookups := map[], map[], map[], map[], map[], map[];
      sent, queries, log := [], [], [];
      state := INITIAL;
    }

    // -------- what the swarm does for the node

    method SendRequest(call: nat, peer: Peer, frame: Bytes) returns (request: nat)
      modifies this`sent
      ensures sent == old(sent) + [Sent(call, peer, frame)] && request == |old(sent)|
    {
      request := |sent|;
      sent := sent + [Sent(call, peer, frame)];
    }

    method StartQuery(query: Query) returns (id: nat)
      modifies this`queries
      ensures queries == old(queries) + [query] && id == |old(queries)|
    {
      id := |queries|;
      queries := queries + [query];
    }

    // -------- the tables, one at a time

    /** The call as it is now, and its history with it. */
    method Store(id: nat, call: Call, ghost h: History)
      requires Valid()
      modifies this`calls, this`state
      ensures Valid() && state == old(state).(calls := old(state).calls[id := call],
                                              ledger := old(state).ledger[id := h])
    {
      calls := calls[id := call];
      state := state.(calls := state.calls[id := call], ledger := state.ledger[id := h]);
    }

    /** A request for the call is under way. */
    method Request(id: nat, peer: Peer, frame: Bytes)
      requires Valid()
      modifies this`outbound, this`sent, this`state
      ensures Valid()
      ensures var s := old(state);
              state == s.(outbound := s.outbound[|s.sent| := id], requestOf := s.requestOf[id := |s.sent|],
                          sent := s.sent + [Sent(id, peer, frame)])
    {
      var request := SendRequest(id, peer, frame);
      outbound := outbound[request := id];
      state := state.(outbound := state.outbound[request := id], requestOf := state.requestOf[id := request],
                      sent := state.sent + [Sent(id, peer, frame)]);
    }

    /** An address lookup for the call is under way. */
    method LookUp(id: nat, peer: Peer)
      requires Valid()
      modifies this`resolutions, this`queries, this`state
      ensures Valid()
      ensures var s := old(state);
              state == s.(resolutions := s.resolutions[|s.queries| := id],
                          resolutionOf := s.resolutionOf[id := |s.queries|],
                          queries := s.queries + [ClosestTo(id, peer)])
    {
      var query := StartQuery(ClosestTo(id, peer));
      resolutions := resolutions[query := id];
      state := state.(resolutions := state.resolutions[query := id], resolutionOf := state.resolutionOf[id := query],
                      queries := state.queries + [ClosestTo(id, peer)]);
    }

    /** A provider lookup for the call is under way. */
    method LookForProviders(id: nat, group: Key)
      requires Valid()
      modifies this`providerLookups, this`queries, this`state
      ensures Valid()
      ensures var s := old(state);
              state == s.(providerLookups := s.providerLookups[|s.queries| := id],
                          lookupOf := s.lookupOf[id := |s.queries|],
                          queries := s.queries + [ProvidersForCall(group)])
    {
      var query := StartQuery(ProvidersForCall(group));
      providerLookups := providerLookups[query := id];
      state := state.(providerLookups := state.providerLookups[query := id], lookupOf := state.lookupOf[id := query],
                      queries := state.queries + [ProvidersForCall(group)]);
    }

    // -------- trying the next candidate

    /** The call leaves the table with its outcome. */
    method Close(id: nat, ghost outcome: Outcome, event: Event)
      requires Valid()
      modifies this
      ensures Valid() && state == End(old(state), id, outcome, event)
    {
      calls := calls - {id};
      log := log + [event];
      state := End(state, id, outcome, event);
    }

    /** Sends the call's frame to `peer`, which was taken from its queue. */
    method AskNext(id: nat, call: Call, peer: Peer, ghost c: Call, ghost pick: Pick)
      requires Valid()
      requires pick.choice == Ask(peer) && call == c.(candidates := pick.rest)
      modifies this
      ensures Valid() && state == Act(old(state), id, c, pick)
    {
      Request(id, peer, call.frame);
      Store(id, call.(inFlight := true), HistoryAfter(Past(state.ledger, id), pick));
    }

    /** Looks up the addresses of `peer`, which goes back to the front of the queue. */
    method ResolveNext(id: nat, call: Call, peer: Peer, ghost c: Call, ghost pick: Pick)
      requires Valid()
      requires pick.choice == Resolve(peer) && call == c.(candidates := call.candidates)
      requires pick.rest == [peer] + call.candidates
      modifies this
      ensures Valid() && state == Act(old(state), id, c, pick)
    {
      LookUp(id, peer);
      Store(id, call.(resolved := call.resolved + {peer}, candidates := [peer] + call.candidates, resolving := true),
            HistoryAfter(Past(state.ledger, id), pick));
    }

    /** The queue is empty: the call waits for more providers, or is over. */
    method OutOfCandidates(id: nat, call: Call, ghost c: Call, ghost pick: Pick)
      requires Valid()
      requires pick.choice == Nobody && call == c.(candidates := pick.rest)
      modifies this
      ensures Valid() && state == Act(old(state), id, c, pick)
    {
      if call.lookupRunning {
        calls := calls[id := call];
        state := Act(state, id, c, pick);
        return;
      }
      state := state.(ledger := state.ledger[id := HistoryAfter(Past(state.ledger, id), pick)]);
      Close(id, Exhausted(call.lastFailure), RpcFailed(id, call.group, call.protocol, call.lastFailure));
    }

    /**
      * Goes through the queue of a waiting call until a peer can be asked or has to be looked up. With the queue
      * used up, the call waits for its provider lookup, or ends.
      */
    method Advance(id: nat, connected: set<Peer>)
      requires Valid()
      modifies this
      ensures Valid() && state == NodeSpec.Advance(old(state), id, connected)
    {
      if id !in calls || calls[id].inFlight || calls[id].resolving {
        return;
      }
      var call := calls[id];
      ghost var c := call;
      ghost var dialables := connected + book.addresses.Keys;
      ghost var pick := Choose(c.candidates, c.resolved, dialables);
      ghost var dropped: seq<Peer> := [];
      while call.candidates != []
        invariant Valid() && state == old(state)
        invariant call == c.(candidates := call.candidates)
        invariant var later := Choose(call.candidates, c.resolved, dialables);
                  pick == later.(dropped := dropped + later.dropped)
        decreases |call.candidates|
      {
        var peer := call.candidates[0];
        assert call.candidates == [peer] + call.candidates[1..];
        call := call.(candidates := call.candidates[1..]);
        var known := book.IsKnown(peer);
        var dialable := peer in connected || known;
        if !dialable {
          if peer !in call.resolved {
            ResolveNext(id, call, peer, c, pick);
            return;
          }
          dropped := dropped + [peer];
        } else {
          AskNext(id, call, peer, c, pick);
          return;
        }
      }
      OutOfCandidates(id, call, c, pick);
    }

    // -------- commands

    method Rpc(id: nat, group: Key, node: Option<Key>, protocol: nat, payload: Bytes, deadline: Time,
               connected: set<Peer>)
      requires Valid() && protocol < |cfg.rpcProtocols|
      modifies this
      ensures Valid() && state == StartCall(old(state), cfg, id, group, node, protocol, payload, deadline, connected)
    {
      Enter(id, group, node, protocol, payload, deadline);
      Advance(id, connected);
    }

    method Enter(id: nat, group: Key, node: Option<Key>, protocol: nat, payload: Bytes, deadline: Time)
      requires Valid() && protocol < |cfg.rpcProtocols|
      modifies this
      ensures Valid() && state == Looking(old(state), cfg, id, group, node, protocol, payload, deadline)
    {
      var frame := Wire.WriteRequest(cfg.delegation, cfg.rpcProtocols[protocol], payload);
      var call := Call(group, protocol, frame, [], {}, {}, false, false, false, deadline, FAIL_UNREACHABLE);
      match node {
        case Some(key) =>
          call := Pin(call, key);
        case None =>
          LookForProviders(id, group);
          call := call.(lookupRunning := true);
      }
      assert Elements<Peer>([]) == {};
      Store(id, call, NO_HISTORY.(group := group, protocol := protocol, frame := frame, pinned := node,
                                  reported := call.seen));
    }

    /** A pinned call has one candidate, or none when the key is no ed25519 key. */
    method Pin(call: Call, key: Key) returns (r: Call)
      requires call.candidates == [] && call.seen == {}
      ensures var target := cfg.prims.peerOf(key);
              var peers := if target.Some? then [target.value] else [];
              r == call.(candidates := peers, seen := Elements(peers))
    {
      r := call;
      match cfg.prims.peerOf(key)
      case Some(peer) => r := r.(seen := r.seen + {peer}, candidates := r.candidates + [peer]);
      case None =>
    }

    /** `started` is the DHT's answer: without a peer to start from it refuses. */
    method Bootstrap(id: nat, started: bool)
      requires Valid()
      modifies this
      ensures Valid() && state == StartBootstrap(old(state), id, started)
    {
      if started {
        var query := StartQuery(Query.Bootstrap);
        bootstraps := bootstraps[query := id];
      } else {
        log := log + [DhtResult(id, FAIL_UNREACHABLE)];
      }
      state := StartBootstrap(state, id, started);
    }

    method RandomWalk(id: nat)
      requires Valid()
      modifies this
      ensures Valid() && state == StartWalk(old(state), id)
    {
      var query := StartQuery(ClosestToRandom);
      walks := walks[query := id];
      state := StartWalk(state, id);
    }

    method FindProviders(id: nat, key: Key)
      requires Valid()
      modifies this
      ensures Valid() && state == NodeSpec.FindProviders(old(state), id, key)
    {
      var query := StartQuery(ProvidersForSearch(key));
      providerQueries := providerQueries[query := id];
      state := NodeSpec.FindProviders(state, id, key);
    }

    method TopicLookup(key: Key)
      requires Valid()
      modifies this
      ensures Valid() && state == LookUpTopic(old(state), key)
    {
      var query := StartQuery(ProvidersForTopic(key));
      topicLookups := topicLookups[query := key];
      state := LookUpTopic(state, key);
    }

    // -------- the clock

    /** Ends the calls whose time is over, in whatever order the table gives them. */
    method Tick(now: Time) returns (ghost expired: seq<nat>)
      requires Valid()
      modifies this
      ensures ListsExpired(old(state), now, expired)
      ensures Valid() && state == Expire(old(state), expired)
    {
      var over := CallsOver(now);
      expired := over;
      for i := 0 to |over|
        invariant Valid() && state == Expire(old(state), over[..i])
      {
        var id := over[i];
        assert over[..i + 1][..i] == over[..i];
        if id in calls {
          Close(id, TimedOut, RpcFailed(id, calls[id].group, calls[id].protocol, FAIL_TIMEOUT));
        }
      }
      assert over[..|over|] == over;
    }

    method CallsOver(now: Time) returns (over: seq<nat>)
      ensures Distinct(over)
      ensures forall id :: id in over <==> id in calls && calls[id].deadline <= now
    {
      over := [];
      var left := calls.Keys;
      while left != {}
        invariant left <= calls.Keys
        invariant Distinct(over)
        invariant forall id :: id in over <==> id in calls && id !in left && calls[id].deadline <= now
        decreases left
      {
        var id :| id in left;
        left := left - {id};
        if calls[id].deadline <= now {
          over := over + [id];
        }
      }
    }

    // -------- addresses

    /** Addresses the caller added, or the routing table learnt. */
    method AddAddresses(peer: Peer, addresses: seq<Multiaddr>)
      requires Valid()
      modifies this, book
      ensures Valid() && state == old(state).(book := Learn(old(state).book, peer, addresses))
    {
      LearnOf(peer, addresses);
      state := state.(book := Learn(state.book, peer, addresses));
    }

    method LearnOf(peer: Peer, addresses: seq<Multiaddr>)
      modifies book
      ensures book.Model() == Learn(old(book.Model()), peer, addresses)
    {
      for i := 0 to |addresses|
        invariant book.Model() == Learn(old(book.Model()), peer, addresses[..i])
      {
        assert addresses[..i + 1][..i] == addresses[..i];
        book.Add(peer, addresses[i]);
      }
      assert addresses[..|addresses|] == addresses;
    }

    method LearnFound(found: seq<Found>)
      modifies book
      ensures book.Model() == LearnAll(old(book.Model()), found)
    {
      for i := 0 to |found|
        invariant book.Model() == LearnAll(old(book.Model()), found[..i])
      {
        assert found[..i + 1][..i] == found[..i];
        LearnOf(found[i].peer, found[i].addresses);
      }
      assert found[..|found|] == found;
    }

    // -------- DHT results

    method QueueAll(id: nat, reports: seq<Report>)
      requires Valid() && id in calls
      modifies this
      ensures Valid() && state == Hear(old(state), cfg, id, reports)
    {
      var call := calls[id];
      for i := 0 to |reports|
        invariant Valid() && state == old(state) && calls == old(calls)
        invariant call == QueueReports(calls[id], reports[..i], cfg.localPeer, lastSuccess, failed)
      {
        assert reports[..i + 1][..i] == reports[..i];
        if reports[i].peer != cfg.localPeer {
          call := Queue(call, reports[i].peer, lastSuccess, failed, reports[i].at);
        }
      }
      assert reports[..|reports|] == reports;
      calls := calls[id := call];
      state := Hear(state, cfg, id, reports);
    }

    /** One event per provider of a search that the caller started. */
    method ShowProviders(id: nat, reports: seq<Report>)
      modifies this`log
      ensures log == old(log) + ProviderEvents(cfg, book.Model(), id, reports)
    {
      ghost var events := ProviderEvents(cfg, book.Model(), id, reports);
      for i := 0 to |reports|
        invariant log == old(log) + events[..i]
      {
        var addresses := book.AddressesOf(reports[i].peer);
        log := log + [Discovered(id, PeerKey(cfg, reports[i].peer), addresses)];
        assert events[..i + 1] == events[..i] + [events[i]];
      }
      assert events[..|reports|] == events;
    }

    method ShowFound(id: nat, found: seq<Found>)
      modifies this`log
      ensures log == old(log) + FoundEvents(cfg, id, found)
    {
      ghost var events := FoundEvents(cfg, id, found);
      for i := 0 to |found|
        invariant log == old(log) + events[..i]
      {
        log := log + [Discovered(id, PeerKey(cfg, found[i].peer), found[i].addresses)];
        assert events[..i + 1] == events[..i] + [events[i]];
      }
      assert events[..|found|] == events;
    }

    /** The result of a search, after its query has left its table. */
    method Conclude(id: nat, reason: nat)
      requires Valid()
      modifies this
      ensures Valid() && state == Finish(old(state), id, reason)
    {
      log := log + [DhtResult(id, reason)];
      state := Finish(state, id, reason);
    }

    /** `reports` is empty for a result that carries no providers. */
    method ProvidersProgressed(query: nat, reports: seq<Report>, last: bool, connected: set<Peer>)
      requires Valid()
      modifies this
      ensures Valid() && state == ProvidersFound(old(state), cfg, query, reports, last, connected)
    {
      if query in topicLookups {
        if last {
          topicLookups := topicLookups - {query};
          state := state.(topicLookups := state.topicLookups - {query});
        }
        return;
      }
      if query in providerQueries {
        SearchProgressed(query, reports, last);
        return;
      }
      if query !in providerLookups {
        return;
      }
      var id := providerLookups[query];
      if id in calls {
        QueueAll(id, reports);
      }
      if last {
        LookupDone(query, id);
      }
      Advance(id, connected);
    }

    method SearchProgressed(query: nat, reports: seq<Report>, last: bool)
      requires Valid() && query !in topicLookups && query in providerQueries
      modifies this
      ensures Valid() && forall connected :: state == ProvidersFound(old(state), cfg, query, reports, last, connected)
    {
      var id := providerQueries[query];
      EmitProviders(id, reports);
      if last {
        EndProviderQuery(query);
        Conclude(id, 0);
      }
    }

    method EmitProviders(id: nat, reports: seq<Report>)
      requires Valid()
      modifies this`log, this`state
      ensures Valid() && state == Emit(old(state), id, ProviderEvents(cfg, old(state).book, id, reports))
    {
      ShowProviders(id, reports);
      state := Emit(state, id, ProviderEvents(cfg, state.book, id, reports));
    }

    method EndProviderQuery(query: nat)
      requires Valid()
      modifies this`providerQueries, this`state
      ensures Valid() && state == old(state).(providerQueries := old(state).providerQueries - {query})
    {
      providerQueries := providerQueries - {query};
      state := state.(providerQueries := state.providerQueries - {query});
    }

    method LookupDone(query: nat, id: nat)
      requires Valid()
      modifies this
      ensures Valid() && state == LookupEnds(old(state), query, id)
    {
      if id in calls {
        calls := calls[id := calls[id].(lookupRunning := false)];
      }
      providerLookups := providerLookups - {query};
      state := LookupEnds(state, query, id);
    }

    method ClosestProgressed(query: nat, found: seq<Found>, connected: set<Peer>)
      requires Valid()
      modifies this, book
      ensures Valid() && state == ClosestFound(old(state), cfg, query, found, connected)
    {
      LearnFound(found);
      state := state.(book := LearnAll(state.book, found));
      if query in resolutions {
        var id := resolutions[query];
        ResolutionDone(query);
        Advance(id, connected);
      } else if query in walks {
        WalkDone(query, found);
      }
    }

    method WalkDone(query: nat, found: seq<Found>)
      requires Valid() && query !in resolutions && query in walks
      modifies this
      ensures Valid()
      ensures forall connected ::
                state == Closest(old(state), query, FoundEvents(cfg, old(walks)[query], found), connected)
    {
      var walk := walks[query];
      EndWalk(query);
      EmitFound(walk, found);
      Conclude(walk, 0);
    }

    method EndWalk(query: nat)
      requires Valid()
      modifies this`walks, this`state
      ensures Valid() && state == old(state).(walks := old(state).walks - {query})
    {
      walks := walks - {query};
      state := state.(walks := state.walks - {query});
    }

    method EmitFound(id: nat, found: seq<Found>)
      requires Valid()
      modifies this`log, this`state
      ensures Valid() && state == Emit(old(state), id, FoundEvents(cfg, id, found))
    {
      ShowFound(id, found);
      state := Emit(state, id, FoundEvents(cfg, id, found));
    }

    method ResolutionDone(query: nat)
      requires Valid() && query in resolutions
      modifies this
      ensures Valid() && state == ResolutionEnds(old(state), query)
    {
      var id := resolutions[query];
      resolutions := resolutions - {query};
      if id in calls {
        calls := calls[id := calls[id].(resolving := false)];
      }
      state := ResolutionEnds(state, query);
    }

    method BootstrapDone(query: nat, ok: bool, last: bool)
      requires Valid()
      modifies this
      ensures Valid() && state == BootstrapProgressed(old(state), query, ok, last)
    {
      if last {
        if query in bootstraps {
          var id := bootstraps[query];
          bootstraps := bootstraps - {query};
          state := state.(bootstraps := state.bootstraps - {query});
          Conclude(id, if ok then 0 else FAIL_TIMEOUT);
        }
      }
    }

    // -------- replies

    method Remember(peer: Peer, now: Time)
      modifies this`failed
      ensures failed == RememberFailure(old(failed), peer, now)
    {
      if |failed| >= MAX_REMEMBERED {
        failed := StillPenalized(failed, now);
        if |failed| >= MAX_REMEMBERED {
          failed := map[];
        }
      }
      failed := failed[peer := now];
    }

    method OutboundFailure(peer: Peer, request: nat, error: SendError, now: Time, connected: set<Peer>)
      requires Valid()
      modifies this
      ensures Valid() && state == RequestFailed(old(state), peer, request, error, now, connected)
    {
      Remember(peer, now);
      state := state.(failed := RememberFailure(state.failed, peer, now));
      if request !in outbound {
        return;
      }
      var id := outbound[request];
      RequestDone(request, FailureOf(error));
      Advance(id, connected);
    }

    method RequestDone(request: nat, failure: nat)
      requires Valid() && request in outbound
      modifies this
      ensures Valid() && state == RequestEnds(old(state), request, failure)
    {
      var id := outbound[request];
      outbound := outbound - {request};
      if id in calls {
        calls := calls[id := calls[id].(inFlight := false, lastFailure := failure)];
      }
      state := RequestEnds(state, request, failure);
    }

    /** A reply that counts ends the call; any other sends it on to the next candidate. */
    method Response(peer: Peer, request: nat, frame: Bytes, nowMs: nat, now: Time, connected: set<Peer>)
      requires Valid()
      modifies this
      ensures Valid() && state == Replied(old(state), cfg, peer, request, frame, nowMs, now, connected)
    {
      if request !in outbound {
        return;
      }
      var id := outbound[request];
      RequestDone(request, FAIL_REFUSED);
      if id !in calls {
        return;
      }
      var group := calls[id].group;
      match Accept(cfg.prims, peer, group, frame, nowMs)
      case Some(answer) =>
        Accepted(id, peer, frame, nowMs, answer);
      case None =>
        Refused(id, peer, now, connected);
    }

    method Refused(id: nat, peer: Peer, now: Time, connected: set<Peer>)
      requires Valid()
      modifies this
      ensures Valid()
      ensures var s := old(state);
              state == NodeSpec.Advance(s.(failed := RememberFailure(s.failed, peer, now)), id, connected)
    {
      Remember(peer, now);
      state := state.(failed := RememberFailure(state.failed, peer, now));
      Advance(id, connected);
    }

    method Accepted(id: nat, peer: Peer, ghost frame: Bytes, ghost nowMs: nat, answer: Answer)
      requires Valid() && id in calls
      modifies this
      ensures Valid() && state == Answers(old(state), id, peer, frame, nowMs, answer)
    {
      var call := calls[id];
      failed := failed - {peer};
      if |lastSuccess| >= MAX_REMEMBERED {
        lastSuccess := map[];
      }
      lastSuccess := lastSuccess[call.group := peer];
      state := state.(failed := failed, lastSuccess := lastSuccess);
      Close(id, Answered(peer, frame, nowMs), RpcResponse(id, call.group, answer.node, call.protocol, answer.payload));
    }
  }
}
