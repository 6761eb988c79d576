/** Which calls and ids the tables may name: calls that were started, ids that were handed out. */
module CallEntries {
  import opened Types
  import opened Calls
  import opened NodeSpec

  ghost predicate LiveIsPending(calls: map<nat, Call>, ledger: map<nat, History>) {
    forall id :: id in calls <==> id in ledger && ledger[id].outcome.Pending?
  }

  /** Entries of a table belong to calls that were started, and their ids were handed out. */
  ghost predicate Started(table: map<nat, nat>, ledger: map<nat, History>, bound: nat) {
    forall k :: k in table ==> k < bound && table[k] in ledger
  }

  /** An outstanding request went to a peer that its call asked. */
  ghost predicate SentForItsCall(outbound: map<nat, nat>, sent: seq<Sent>, ledger: map<nat, History>) {
    forall r :: r in outbound ==>
      r < |sent| && sent[r].call == outbound[r] && sent[r].peer in Past(ledger, outbound[r]).asked
  }

  ghost predicate EntriesStarted(s: State) {
    && LiveIsPending(s.calls, s.ledger)
    && Started(s.outbound, s.ledger, |s.sent|)
    && Started(s.resolutions, s.ledger, |s.queries|)
    && Started(s.providerLookups, s.ledger, |s.queries|)
    && SentForItsCall(s.outbound, s.sent, s.ledger)
  }

  // -------- the small changes

  lemma SentWithHistory(outbound: map<nat, nat>, sent: seq<Sent>, ledger: map<nat, History>, id: nat, h: History)
    requires SentForItsCall(outbound, sent, ledger)
    requires forall p :: p in Past(ledger, id).asked ==> p in h.asked
    ensures SentForItsCall(outbound, sent, ledger[id := h])
  {
  }

  lemma SentWithRequest(outbound: map<nat, nat>, sent: seq<Sent>, ledger: map<nat, History>, id: nat, peer: Peer,
                        frame: Bytes)
    requires SentForItsCall(outbound, sent, ledger) && peer in Past(ledger, id).asked
    ensures SentForItsCall(outbound[|sent| := id], sent + [Sent(id, peer, frame)], ledger)
  {
  }

  lemma EndKeepsEntries(s: State, id: nat, outcome: Outcome, event: Event)
    requires EntriesStarted(s) && id in s.calls && !outcome.Pending?
    ensures EntriesStarted(End(s, id, outcome, event))
  {
    SentWithHistory(s.outbound, s.sent, s.ledger, id, Past(s.ledger, id).(outcome := outcome));
  }

  lemma UpdateKeepsEntries(s: State, id: nat, c: Call, h: History)
    requires EntriesStarted(s) && id in s.calls && h.outcome.Pending?
    requires forall p :: p in Past(s.ledger, id).asked ==> p in h.asked
    ensures EntriesStarted(s.(calls := s.calls[id := c], ledger := s.ledger[id := h]))
  {
    SentWithHistory(s.outbound, s.sent, s.ledger, id, h);
  }

  lemma AskKeepsEntries(s: State, id: nat, pick: Pick)
    requires EntriesStarted(s) && id in s.calls && pick.choice.Ask?
    ensures EntriesStarted(Act(s, id, s.calls[id], pick))
  {
    var h := HistoryAfter(Past(s.ledger, id), pick);
    UpdateKeepsEntries(s, id, CallAfter(s.calls[id], pick), h);
    SentWithRequest(s.outbound, s.sent, s.ledger[id := h], id, pick.choice.peer, s.calls[id].frame);
  }

  lemma ResolveKeepsEntries(s: State, id: nat, pick: Pick)
    requires EntriesStarted(s) && id in s.calls && pick.choice.Resolve?
    ensures EntriesStarted(Act(s, id, s.calls[id], pick))
  {
    UpdateKeepsEntries(s, id, CallAfter(s.calls[id], pick), HistoryAfter(Past(s.ledger, id), pick));
  }

  lemma NobodyKeepsEntries(s: State, id: nat, pick: Pick)
    requires EntriesStarted(s) && id in s.calls && pick.choice.Nobody?
    ensures EntriesStarted(Act(s, id, s.calls[id], pick))
  {
    var c, h := s.calls[id], HistoryAfter(Past(s.ledger, id), pick);
    UpdateKeepsEntries(s, id, CallAfter(c, pick), h);
    if !c.lookupRunning {
      UpdateKeepsEntries(s, id, c, h);
      var s' := s.(calls := s.calls[id := c], ledger := s.ledger[id := h]);
      assert s'.calls == s.calls;
      EndKeepsEntries(s', id, Exhausted(c.lastFailure), RpcFailed(id, c.group, c.protocol, c.lastFailure));
    }
  }

  // -------- what a handler does first

  lemma LookingKeepsEntries(s: State, cfg: Config, id: nat, group: Key, node: Option<Key>, protocol: nat,
                            payload: Bytes, deadline: Time)
    requires EntriesStarted(s) && id !in s.ledger && protocol < |cfg.rpcProtocols|
    ensures EntriesStarted(Looking(s, cfg, id, group, node, protocol, payload, deadline))
  {
    var s' := Looking(s, cfg, id, group, node, protocol, payload, deadline);
    var c, h := s'.calls[id], s'.ledger[id];
    NewCallKeepsEntries(s, id, c, h);
    if node.None? {
      LookupKeepsEntries(s.(calls := s.calls[id := c], ledger := s.ledger[id := h]), id, ProvidersForCall(group));
    }
  }

  lemma NewCallKeepsEntries(s: State, id: nat, c: Call, h: History)
    requires EntriesStarted(s) && id !in s.ledger && h.outcome.Pending?
    ensures EntriesStarted(s.(calls := s.calls[id := c], ledger := s.ledger[id := h]))
  {
    SentWithHistory(s.outbound, s.sent, s.ledger, id, h);
  }

  lemma LookupKeepsEntries(s: State, id: nat, query: Query)
    requires EntriesStarted(s) && id in s.ledger
    ensures EntriesStarted(s.(providerLookups := s.providerLookups[|s.queries| := id],
                              lookupOf := s.lookupOf[id := |s.queries|], queries := s.queries + [query]))
  {
  }

  lemma HearKeepsEntries(s: State, cfg: Config, id: nat, reports: seq<Report>)
    requires EntriesStarted(s) && id in s.calls
    ensures EntriesStarted(Hear(s, cfg, id, reports))
  {
    var h := Past(s.ledger, id);
    UpdateKeepsEntries(s, id, QueueReports(s.calls[id], reports, cfg.localPeer, s.lastSuccess, s.failed),
                       h.(reported := h.reported + Reported(reports, cfg.localPeer)));
  }

  lemma LookupEndsKeepsEntries(s: State, query: nat, id: nat)
    requires EntriesStarted(s)
    ensures EntriesStarted(LookupEnds(s, query, id))
  {
  }

  lemma CompleteKeepsEntries(s: State, id: nat, c: Call)
    requires EntriesStarted(s) && id in s.calls
    ensures EntriesStarted(Complete(s, id, c))
  {
    UpdateKeepsEntries(s, id, c, OneMore(s.ledger, id)[id]);
  }

  lemma LiveResolutionEndsKeepsEntries(s: State, query: nat)
    requires EntriesStarted(s) && query in s.resolutions && s.resolutions[query] in s.calls
    ensures EntriesStarted(ResolutionEnds(s, query))
  {
    var id := s.resolutions[query];
    var c, fewer := s.calls[id].(resolving := false), s.(
      resolutions := s.resolutions - {query}, resolutionOf := s.resolutionOf - {id});
    FewerEntries(s, fewer);
    CompleteKeepsEntries(fewer, id, c);
  }

  lemma StaleResolutionEndsKeepsEntries(s: State, query: nat)
    requires EntriesStarted(s) && query in s.resolutions && s.resolutions[query] !in s.calls
    ensures EntriesStarted(ResolutionEnds(s, query))
  {
    FewerEntries(s, ResolutionEnds(s, query));
  }

  lemma LiveRequestEndsKeepsEntries(s: State, request: nat, failure: nat)
    requires EntriesStarted(s) && request in s.outbound && s.outbound[request] in s.calls
    ensures EntriesStarted(RequestEnds(s, request, failure))
  {
    var id := s.outbound[request];
    var c, fewer := s.calls[id].(inFlight := false, lastFailure := failure), s.(
      outbound := s.outbound - {request}, requestOf := s.requestOf - {id});
    FewerEntries(s, fewer);
    CompleteKeepsEntries(fewer, id, c);
  }

  lemma StaleRequestEndsKeepsEntries(s: State, request: nat, failure: nat)
    requires EntriesStarted(s) && request in s.outbound && s.outbound[request] !in s.calls
    ensures EntriesStarted(RequestEnds(s, request, failure))
  {
    FewerEntries(s, RequestEnds(s, request, failure));
  }

  /** Entries may always be forgotten. */
  lemma FewerEntries(s: State, s': State)
    requires EntriesStarted(s)
    requires s'.calls == s.calls && s'.ledger == s.ledger && s'.sent == s.sent && s'.queries == s.queries
    requires s'.providerLookups == s.providerLookups
    requires forall k :: k in s'.outbound ==> k in s.outbound && s'.outbound[k] == s.outbound[k]
    requires forall k :: k in s'.resolutions ==> k in s.resolutions && s'.resolutions[k] == s.resolutions[k]
    ensures EntriesStarted(s')
  {
  }
}
