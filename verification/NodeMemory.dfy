/** What a call leaves behind for the next one, and why it failed. */
module NodeMemory {
  import opened Types
  import opened AddressBooks
  import opened Calls
  import opened NodeSpec
  import opened NodeTheorems
  import opened NodeTraces
  import opened CallAccount
  import opened NodeSteps

  // -------- runs and single steps

  /**
    * The states a node can reach are closed under its steps, so what holds of them holds whatever handler comes
    * next.
    */
  lemma StepReaches(cfg: Config, s: State, step: Step)
    requires Reachable(cfg, s) && Enabled(s, cfg, step)
    ensures Reachable(cfg, Next(s, cfg, step))
  {
    var steps :| IsRun(INITIAL, cfg, steps) && After(INITIAL, cfg, steps) == s;
    RunExtended(INITIAL, cfg, steps, step);
  }

  lemma {:induction false} RunExtended(s: State, cfg: Config, steps: seq<Step>, step: Step)
    requires IsRun(s, cfg, steps) && Enabled(After(s, cfg, steps), cfg, step)
    ensures IsRun(s, cfg, steps + [step])
    ensures After(s, cfg, steps + [step]) == Next(After(s, cfg, steps), cfg, step)
    decreases |steps|
  {
    hide Next, Enabled;
    if steps == [] {
      assert steps + [step] == [step] && [step][1..] == [];
    } else {
      assert (steps + [step])[1..] == steps[1..] + [step];
      RunExtended(Next(s, cfg, steps[0]), cfg, steps[1..], step);
    }
  }

  // -------- memory

  /**
    * In the memory that a failed request leaves behind, its peer is penalized at any time before the penalty is
    * over.
    */
  lemma FailureIsPenalized(s: State, peer: Peer, request: nat, error: SendError, now: Time, connected: set<Peer>,
                           later: Time)
    requires now <= later < now + FAILURE_PENALTY
    ensures Penalized(RequestFailed(s, peer, request, error, now, connected).failed, later, peer)
  {
    var s' := s.(failed := RememberFailure(s.failed, peer, now));
    if request in s.outbound {
      RequestEndLeaves(s', request, FailureOf(error));
      AdvanceKeepsMemory(RequestEnds(s', request, FailureOf(error)), s.outbound[request], connected);
    }
  }

  // -------- the order in which a result queues providers

  /** The peers of a result that the call has not heard of: neither the node itself nor one in `seen`. */
  function News(reports: seq<Report>, local: Peer, seen: set<Peer>): seq<Peer> {
    if reports == [] then []
    else
      var last := reports[|reports| - 1].peer;
      News(reports[..|reports| - 1], local, seen) + (if last != local && last !in seen then [last] else [])
  }

  ghost predicate AllAt(reports: seq<Report>, now: Time) {
    forall i :: 0 <= i < |reports| ==> reports[i].at == now
  }

  /** Peers known before do not matter for queueing one that is not among them. */
  lemma KnownPeersApart(c: Call, plain: Call, known: set<Peer>, peer: Peer, lastSuccess: map<Key, Peer>,
                        failed: map<Peer, Time>, now: Time)
    requires c == plain.(seen := c.seen) && c.seen == known + plain.seen && plain.seen !! known && peer !in known
    ensures var r, p := Enqueue(c, peer, lastSuccess, failed, now), Enqueue(plain, peer, lastSuccess, failed, now);
            r == p.(seen := r.seen) && r.seen == known + p.seen && p.seen !! known
  {
    if peer in plain.seen {
    } else {
      assert c.seen + {peer} == known + (plain.seen + {peer});
    }
  }

  /** What a result does to a call is what queueing its news does to one that has heard of nobody. */
  lemma {:induction false} ReportsQueueTheNews(c: Call, reports: seq<Report>, local: Peer, lastSuccess: map<Key, Peer>,
                                               failed: map<Peer, Time>, now: Time)
    requires AllAt(reports, now)
    ensures var r := QueueReports(c, reports, local, lastSuccess, failed);
            var plain := EnqueueAll(c.(seen := {}), News(reports, local, c.seen), lastSuccess, failed, now);
            && r == plain.(seen := r.seen)
            && r.seen == c.seen + plain.seen && plain.seen !! c.seen
  {
    if reports != [] {
      var before, last := reports[..|reports| - 1], reports[|reports| - 1].peer;
      var news := News(before, local, c.seen);
      assert AllAt(before, now);
      ReportsQueueTheNews(c, before, local, lastSuccess, failed, now);
      assert (news + [last])[..|news + [last]| - 1] == news && news + [] == news;
      var m := QueueReports(c, before, local, lastSuccess, failed);
      var plain := EnqueueAll(c.(seen := {}), news, lastSuccess, failed, now);
      hide Enqueue;
      if last != local && last !in c.seen {
        KnownPeersApart(m, plain, c.seen, last, lastSuccess, failed, now);
      } else if last != local {
        KnownIsSkipped(m, last, lastSuccess, failed, now);
      }
    } else {
      assert c.(seen := {}).(seen := c.seen) == c;
    }
  }

  lemma KnownIsSkipped(c: Call, peer: Peer, lastSuccess: map<Key, Peer>, failed: map<Peer, Time>, now: Time)
    requires peer in c.seen
    ensures Enqueue(c, peer, lastSuccess, failed, now) == c
  {
  }

  /**
    * A result that reaches a call with an empty queue, all at one time, leaves it with its news in the promised
    * order: the last good node of the group, the unpenalized others and the penalized ones, both as reported.
    */
  lemma HearQueuesInPromisedOrder(s: State, cfg: Config, id: nat, reports: seq<Report>, now: Time)
    requires id in s.calls && s.calls[id].candidates == [] && AllAt(reports, now)
    ensures var c := s.calls[id];
            Hear(s, cfg, id, reports).calls[id].candidates
            == PromisedOrder(News(reports, cfg.localPeer, c.seen), Best(c.group, s.lastSuccess), s.failed, now)
  {
    var c := s.calls[id];
    ReportsQueueTheNews(c, reports, cfg.localPeer, s.lastSuccess, s.failed, now);
    QueueIsPromisedOrder(c.(seen := {}), News(reports, cfg.localPeer, c.seen), s.lastSuccess, s.failed, now);
  }

  /** In that queue nobody without a penalty comes behind somebody with one. */
  lemma PenalizedComeLast(s: State, cfg: Config, id: nat, reports: seq<Report>, now: Time, i: nat, j: nat)
    requires id in s.calls && s.calls[id].candidates == [] && AllAt(reports, now)
    requires i < j < |Hear(s, cfg, id, reports).calls[id].candidates|
    requires Penalized(s.failed, now, Hear(s, cfg, id, reports).calls[id].candidates[i])
    ensures Penalized(s.failed, now, Hear(s, cfg, id, reports).calls[id].candidates[j])
  {
    var c := s.calls[id];
    HearQueuesInPromisedOrder(s, cfg, id, reports, now);
    EarlyAndLate(FirstReports(News(reports, cfg.localPeer, c.seen)), Best(c.group, s.lastSuccess), s.failed, now);
  }

  /** An accepted reply clears the peer and makes it the last good node of the group. */
  lemma SuccessIsRemembered(s: State, cfg: Config, peer: Peer, request: nat, frame: Bytes, nowMs: nat, now: Time,
                            connected: set<Peer>)
    requires request in s.outbound && s.outbound[request] in s.calls
    requires Accept(cfg.prims, peer, s.calls[s.outbound[request]].group, frame, nowMs).Some?
    ensures var s' := Replied(s, cfg, peer, request, frame, nowMs, now, connected);
            var group := s.calls[s.outbound[request]].group;
            && peer !in s'.failed && group in s'.lastSuccess && s'.lastSuccess[group] == peer
            && s.outbound[request] !in s'.calls
  {
  }

  /** The peer has gone to the front of the queue, once it was reported. */
  ghost predicate Leads(c: Call, peer: Peer) {
    peer in c.seen && c.candidates != [] && c.candidates[0] == peer
  }

  /** Nobody is queued before an unpenalized peer at the front, except the last good node. */
  lemma StillLeads(c: Call, peer: Peer, other: Peer, lastSuccess: map<Key, Peer>, failed: map<Peer, Time>, now: Time)
    requires c.group in lastSuccess && lastSuccess[c.group] == peer && peer !in failed && Leads(c, peer)
    ensures Leads(Enqueue(c, other, lastSuccess, failed, now), peer)
  {
    assert !Penalized(failed, now, peer);
  }

  /** Whatever the queue and the clocks, the last good node leads as soon as a result reports it. */
  lemma {:induction false} ReportedLeads(c: Call, reports: seq<Report>, local: Peer, lastSuccess: map<Key, Peer>,
                                         failed: map<Peer, Time>, peer: Peer)
    requires c.group in lastSuccess && lastSuccess[c.group] == peer && peer !in failed
    requires peer !in c.seen && peer != local
    ensures var r := QueueReports(c, reports, local, lastSuccess, failed);
            && r == c.(seen := r.seen, candidates := r.candidates)
            && if exists i :: 0 <= i < |reports| && reports[i].peer == peer then Leads(r, peer) else peer !in r.seen
  {
    if reports != [] {
      var before, last := reports[..|reports| - 1], reports[|reports| - 1];
      ReportedLeads(c, before, local, lastSuccess, failed, peer);
      var m := QueueReports(c, before, local, lastSuccess, failed);
      assert forall i :: 0 <= i < |before| ==> before[i] == reports[i];
      if last.peer != local && Leads(m, peer) {
        StillLeads(m, peer, last.peer, lastSuccess, failed, last.at);
      }
    }
  }

  /**
    * A waiting call that hears of the group's last good node turns to it next: it sends it the request when it can
    * be dialed, and looks its addresses up otherwise, whoever else is reported, queued or penalized.
    */
  lemma NextCallAsksItFirst(s: State, cfg: Config, query: nat, reports: seq<Report>, last: bool, connected: set<Peer>,
                            id: nat, peer: Peer)
    requires LooksFor(s, query, id) && id in s.calls && !s.calls[id].inFlight && !s.calls[id].resolving
    requires var c := s.calls[id];
             && c.group in s.lastSuccess && s.lastSuccess[c.group] == peer && peer !in s.failed
             && peer !in c.seen && peer !in c.resolved && peer != cfg.localPeer
    requires exists i :: 0 <= i < |reports| && reports[i].peer == peer
    ensures var s' := ProvidersFound(s, cfg, query, reports, last, connected);
            if peer in connected || peer in s.book.addresses
            then s'.sent == s.sent + [Sent(id, peer, s.calls[id].frame)]
            else s'.sent == s.sent && s'.queries == s.queries + [ClosestTo(id, peer)]
  {
    ReportedLeads(s.calls[id], reports, cfg.localPeer, s.lastSuccess, s.failed, peer);
    var m := Hear(s, cfg, id, reports);
    LeaderIsChosen(m.calls[id], peer, connected + s.book.addresses.Keys);
    if last {
      LookupEndLeaves(m, query, id);
      ChoiceIsMade(LookupEnds(m, query, id), id, connected, peer);
    } else {
      ChoiceIsMade(m, id, connected, peer);
    }
  }

  lemma LookupEndLeaves(s: State, query: nat, id: nat)
    requires id in s.calls
    ensures var s' := LookupEnds(s, query, id);
            && s'.calls == s.calls[id := s.calls[id].(lookupRunning := false)]
            && s'.sent == s.sent && s'.queries == s.queries && s'.book == s.book
  {
  }

  lemma ChoiceIsMade(s: State, id: nat, connected: set<Peer>, peer: Peer)
    requires id in s.calls && !s.calls[id].inFlight && !s.calls[id].resolving
    requires var dialable := connected + s.book.addresses.Keys;
             Choose(s.calls[id].candidates, s.calls[id].resolved, dialable).choice
             == if peer in dialable then Ask(peer) else Resolve(peer)
    ensures var s' := NodeSpec.Advance(s, id, connected);
            if peer in connected || peer in s.book.addresses
            then s'.sent == s.sent + [Sent(id, peer, s.calls[id].frame)]
            else s'.sent == s.sent && s'.queries == s.queries + [ClosestTo(id, peer)]
  {
    hide Choose, CallAfter, HistoryAfter;
    if peer in connected + s.book.addresses.Keys {
    } else {
    }
  }

  lemma LeaderIsChosen(c: Call, peer: Peer, dialable: set<Peer>)
    requires Leads(c, peer) && peer !in c.resolved
    ensures Choose(c.candidates, c.resolved, dialable).choice == if peer in dialable then Ask(peer) else Resolve(peer)
  {
  }

  // -------- reasons

  /** The reason a call gives in the end is that of its last attempt. */
  ghost predicate Blames(s: State, id: nat, reason: nat) {
    if id in s.calls then s.calls[id].lastFailure == reason
    else id in s.ledger && s.ledger[id].outcome == Exhausted(reason)
  }

  lemma AdvanceBlames(s: State, id: nat, connected: set<Peer>)
    requires id in s.calls
    ensures Blames(NodeSpec.Advance(s, id, connected), id, s.calls[id].lastFailure)
  {
    var c := s.calls[id];
    if !c.inFlight && !c.resolving {
      var pick := Choose(c.candidates, c.resolved, connected + s.book.addresses.Keys);
      if pick.choice.Nobody? && !c.lookupRunning {
        GiveUpShape(s, id, c, pick);
      } else {
        TryShape(s, id, c, pick);
      }
    }
  }

  lemma RequestEndBlames(s: State, request: nat, failure: nat)
    requires request in s.outbound && s.outbound[request] in s.calls
    ensures var id, s' := s.outbound[request], RequestEnds(s, request, failure);
            id in s'.calls && s'.calls[id].lastFailure == failure
  {
  }

  /** A call whose request failed goes on, or ends, with the reason of that failure. */
  lemma FailureIsTheReason(s: State, peer: Peer, request: nat, error: SendError, now: Time, connected: set<Peer>)
    requires request in s.outbound && s.outbound[request] in s.calls
    ensures Blames(RequestFailed(s, peer, request, error, now, connected), s.outbound[request], FailureOf(error))
  {
    var s' := s.(failed := RememberFailure(s.failed, peer, now));
    RequestEndBlames(s', request, FailureOf(error));
    AdvanceBlames(RequestEnds(s', request, FailureOf(error)), s.outbound[request], connected);
  }

  /** One whose reply was not accepted goes on, or ends, as refused. */
  lemma RefusalIsTheReason(s: State, cfg: Config, peer: Peer, request: nat, frame: Bytes, nowMs: nat, now: Time,
                           connected: set<Peer>)
    requires request in s.outbound && s.outbound[request] in s.calls
    requires Accept(cfg.prims, peer, s.calls[s.outbound[request]].group, frame, nowMs).None?
    ensures Blames(Replied(s, cfg, peer, request, frame, nowMs, now, connected), s.outbound[request], FAIL_REFUSED)
  {
    var done := RequestEnds(s, request, FAIL_REFUSED);
    RequestEndBlames(s, request, FAIL_REFUSED);
    AdvanceBlames(done.(failed := RememberFailure(s.failed, peer, now)), s.outbound[request], connected);
  }

  /** One that found nobody to ask starts, or ends at once, as unreachable. */
  lemma UnreachableAtFirst(s: State, cfg: Config, id: nat, group: Key, node: Option<Key>, protocol: nat,
                           payload: Bytes, deadline: Time, connected: set<Peer>)
    requires protocol < |cfg.rpcProtocols|
    ensures Blames(StartCall(s, cfg, id, group, node, protocol, payload, deadline, connected), id, FAIL_UNREACHABLE)
  {
    AdvanceBlames(Looking(s, cfg, id, group, node, protocol, payload, deadline), id, connected);
  }

  // -------- the shortest failure

  /** The call `1`, pinned to a key, in its table and before its first try. */
  function PinnedCall(cfg: Config, key: Key): State
    requires cfg.rpcProtocols != []
  {
    Looking(INITIAL, cfg, 1, ZERO_KEY, Some(key), 0, [], 0)
  }

  lemma PinIsLookedUp(cfg: Config, key: Key, peer: Peer)
    requires cfg.prims.peerOf(key) == Some(peer) && cfg.rpcProtocols != []
    ensures var m := PinnedCall(cfg, key);
            && m.calls[1].candidates == [peer] && m.calls[1].resolved == {}
            && Next(INITIAL, cfg, DoCall(1, ZERO_KEY, Some(key), 0, [], 0, {}))
               == Act(m, 1, m.calls[1], Pick([], [peer], Resolve(peer)))
  {
    var m := PinnedCall(cfg, key);
    assert Choose([peer], {}, {}) == Pick([], [peer], Resolve(peer));
    assert {} + m.book.addresses.Keys == {};
  }

  lemma NothingFound(cfg: Config, s: State, peer: Peer)
    requires 0 in s.resolutions && s.resolutions[0] == 1 && 1 in s.calls && s.book == EMPTY
    requires var c := s.calls[1]; c.candidates == [peer] && c.resolved == {peer} && !c.inFlight
    ensures var ended := ResolutionEnds(s, 0);
            Next(s, cfg, OnClosest(0, [], {})) == Act(ended, 1, ended.calls[1], Pick([peer], [], Nobody))
  {
    assert Choose([peer], {peer}, {}) == Pick([peer], [], Nobody);
    assert {} + s.book.addresses.Keys == {};
  }

  /**
    * A call pinned to a peer that cannot be dialed: its addresses are looked up, nothing is found, it is given up
    * without a request, and the call ends as unreachable.
    */
  lemma UnreachablePeerIsGivenUp(cfg: Config, key: Key, peer: Peer)
    requires cfg.prims.peerOf(key) == Some(peer) && cfg.rpcProtocols != []
    ensures var s1 := Next(INITIAL, cfg, DoCall(1, ZERO_KEY, Some(key), 0, [], 0, {}));
            var s2 := Next(s1, cfg, OnClosest(0, [], {}));
            && s1.queries == [ClosestTo(1, peer)] && 1 in s1.calls && s1.calls[1].resolving
            && 1 !in s2.calls && s2.sent == [] && s2.queries == s1.queries
            && Past(s2.ledger, 1).dropped == [peer] && GivesUp(cfg, s1, OnClosest(0, [], {}), 1, peer)
            && s2.log == [RpcFailed(1, ZERO_KEY, 0, FAIL_UNREACHABLE)]
  {
    PinIsLookedUp(cfg, key, peer);
    var s1 := Next(INITIAL, cfg, DoCall(1, ZERO_KEY, Some(key), 0, [], 0, {}));
    NothingFound(cfg, s1, peer);
    hide NodeSpec.Advance, Choose;
    assert s1.queries[..0] == [];
  }
}
