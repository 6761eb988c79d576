/** The books of every call, live or over, are kept by everything that happens to it. */
module CallBooks {
  import opened Types
  import opened Calls
  import opened NodeSpec
  import opened CallAccount

  /** The books of a call that is over. */
  ghost predicate Closed(h: History) {
    && multiset(h.asked) + multiset(h.dropped) <= multiset(h.reported)
    && (h.outcome.Exhausted? ==> Partitioned(h.reported, h.asked, h.dropped, []))
    && multiset(h.looked) <= multiset(h.reported)
    && (forall p :: p in h.dropped ==> p in h.looked)
    && h.completions <= 2 * |h.reported|
  }

  ghost predicate BooksKept(calls: map<nat, Call>, ledger: map<nat, History>) {
    && (forall id :: id in calls ==> Accounted(calls[id], Past(ledger, id)))
    && (forall id :: id in ledger && id !in calls ==> Closed(ledger[id]))
  }

  lemma OpenBooksClose(c: Call, h: History, outcome: Outcome)
    requires Accounted(c, h)
    requires outcome.Exhausted? ==> c.candidates == []
    ensures Closed(h.(outcome := outcome))
  {
    assert c.candidates == [] ==> multiset(c.candidates) == multiset{};
    forall p | p in h.dropped
      ensures p in h.looked
    {
      assert p in multiset(c.resolved);
    }
    SubsetsAsMultisets(c.resolved, c.seen);
  }

  lemma SubsetsAsMultisets(a: set<Peer>, b: set<Peer>)
    requires a <= b
    ensures multiset(a) <= multiset(b)
  {
  }

  lemma BooksAfterUpdate(calls: map<nat, Call>, ledger: map<nat, History>, id: nat, c: Call, h: History)
    requires BooksKept(calls, ledger) && Accounted(c, h)
    ensures BooksKept(calls[id := c], ledger[id := h])
  {
  }

  lemma BooksAfterEnd(calls: map<nat, Call>, ledger: map<nat, History>, id: nat, h: History)
    requires BooksKept(calls, ledger) && Closed(h)
    ensures BooksKept(calls - {id}, ledger[id := h])
  {
  }

  // -------- what a handler does at its end

  lemma EndKeepsBooks(s: State, id: nat, outcome: Outcome, event: Event)
    requires BooksKept(s.calls, s.ledger) && id in s.calls && !outcome.Exhausted?
    ensures var s' := End(s, id, outcome, event); BooksKept(s'.calls, s'.ledger)
  {
    var h := Past(s.ledger, id);
    OpenBooksClose(s.calls[id], h, outcome);
    BooksAfterEnd(s.calls, s.ledger, id, h.(outcome := outcome));
  }

  lemma ActKeepsBooks(s: State, id: nat, dialable: set<Peer>)
    requires BooksKept(s.calls, s.ledger)
    requires id in s.calls && !s.calls[id].inFlight && !s.calls[id].resolving
    ensures var pick := Choose(s.calls[id].candidates, s.calls[id].resolved, dialable);
            var s' := Act(s, id, s.calls[id], pick);
            BooksKept(s'.calls, s'.ledger)
  {
    var c, h := s.calls[id], Past(s.ledger, id);
    var pick := Choose(c.candidates, c.resolved, dialable);
    ActKeepsAccount(c, h, dialable);
    ChooseSplits(c.candidates, c.resolved, dialable);
    PickKeepsBooks(s, id, pick);
  }

  lemma PickKeepsBooks(s: State, id: nat, pick: Pick)
    requires BooksKept(s.calls, s.ledger) && id in s.calls
    requires Accounted(CallAfter(s.calls[id], pick), HistoryAfter(Past(s.ledger, id), pick))
    requires pick.choice.Nobody? ==> pick.rest == []
    ensures var s' := Act(s, id, s.calls[id], pick); BooksKept(s'.calls, s'.ledger)
  {
    if pick.choice.Nobody? && !s.calls[id].lookupRunning {
      GiveUpKeepsBooks(s, id, pick);
    } else {
      GoOnKeepsBooks(s, id, pick);
    }
  }

  lemma GoOnKeepsBooks(s: State, id: nat, pick: Pick)
    requires BooksKept(s.calls, s.ledger) && id in s.calls
    requires Accounted(CallAfter(s.calls[id], pick), HistoryAfter(Past(s.ledger, id), pick))
    requires pick.choice.Nobody? ==> s.calls[id].lookupRunning
    ensures var s' := Act(s, id, s.calls[id], pick); BooksKept(s'.calls, s'.ledger)
  {
    TryShape(s, id, s.calls[id], pick);
    BooksAfterUpdate(s.calls, s.ledger, id, CallAfter(s.calls[id], pick), HistoryAfter(Past(s.ledger, id), pick));
  }

  lemma GiveUpKeepsBooks(s: State, id: nat, pick: Pick)
    requires BooksKept(s.calls, s.ledger) && id in s.calls
    requires Accounted(CallAfter(s.calls[id], pick), HistoryAfter(Past(s.ledger, id), pick))
    requires pick.choice.Nobody? && pick.rest == [] && !s.calls[id].lookupRunning
    ensures var s' := Act(s, id, s.calls[id], pick); BooksKept(s'.calls, s'.ledger)
  {
    var c, h := s.calls[id], HistoryAfter(Past(s.ledger, id), pick);
    OpenBooksClose(CallAfter(c, pick), h, Exhausted(c.lastFailure));
    BooksAfterEnd(s.calls, s.ledger, id, h.(outcome := Exhausted(c.lastFailure)));
    GiveUpShape(s, id, c, pick);
  }

  // -------- what a handler does first

  lemma LookingKeepsBooks(s: State, cfg: Config, id: nat, group: Key, node: Option<Key>, protocol: nat,
                          payload: Bytes, deadline: Time)
    requires BooksKept(s.calls, s.ledger) && protocol < |cfg.rpcProtocols|
    ensures var s' := Looking(s, cfg, id, group, node, protocol, payload, deadline); BooksKept(s'.calls, s'.ledger)
  {
    var s' := Looking(s, cfg, id, group, node, protocol, payload, deadline);
    var c, h := s'.calls[id], s'.ledger[id];
    NewCallAccounts(c, h);
    BooksAfterUpdate(s.calls, s.ledger, id, c, h);
  }

  lemma NewCallAccounts(c: Call, h: History)
    requires c.group == h.group && c.protocol == h.protocol && c.frame == h.frame && c.seen == h.reported
    requires |c.candidates| <= 1 && c.seen == Elements(c.candidates) && c.resolved == {}
    requires !c.inFlight && !c.resolving
    requires h.asked == [] && h.looked == [] && h.dropped == [] && h.completions == 0
    ensures Accounted(c, h)
  {
    if c.candidates == [] {
      assert c.seen == {};
    } else {
      var p := c.candidates[0];
      assert c.candidates == [p] && c.seen == {p};
      assert Weight([p][1..], {}) == 0;
    }
  }

  lemma HearKeepsBooks(s: State, cfg: Config, id: nat, reports: seq<Report>)
    requires BooksKept(s.calls, s.ledger) && id in s.calls
    ensures var s' := Hear(s, cfg, id, reports); BooksKept(s'.calls, s'.ledger)
  {
    var h := Past(s.ledger, id);
    ReportsKeepAccount(s.calls[id], h, reports, cfg.localPeer, s.lastSuccess, s.failed);
    BooksAfterUpdate(s.calls, s.ledger, id,
                     QueueReports(s.calls[id], reports, cfg.localPeer, s.lastSuccess, s.failed),
                     h.(reported := h.reported + Reported(reports, cfg.localPeer)));
  }

  lemma LookupEndsKeepsBooks(s: State, query: nat, id: nat)
    requires BooksKept(s.calls, s.ledger)
    ensures var s' := LookupEnds(s, query, id); BooksKept(s'.calls, s'.ledger)
  {
    if id in s.calls {
      OneCallChanges(s.calls, s.ledger, id, s.calls[id].(lookupRunning := false));
    }
  }

  lemma OneCallChanges(calls: map<nat, Call>, ledger: map<nat, History>, id: nat, c: Call)
    requires BooksKept(calls, ledger) && id in calls && Accounted(c, Past(ledger, id))
    ensures BooksKept(calls[id := c], ledger)
  {
  }

  lemma RequestCompletesBooks(s: State, id: nat, failure: nat)
    requires BooksKept(s.calls, s.ledger) && id in s.calls && s.calls[id].inFlight
    ensures var s' := Complete(s, id, s.calls[id].(inFlight := false, lastFailure := failure));
            BooksKept(s'.calls, s'.ledger)
  {
    CompletionKeepsAccount(s.calls[id], Past(s.ledger, id), failure);
    BooksAfterUpdate(s.calls, s.ledger, id, s.calls[id].(inFlight := false, lastFailure := failure),
                     OneMore(s.ledger, id)[id]);
  }

  lemma ResolutionCompletesBooks(s: State, id: nat)
    requires BooksKept(s.calls, s.ledger) && id in s.calls && s.calls[id].resolving
    ensures var s' := Complete(s, id, s.calls[id].(resolving := false)); BooksKept(s'.calls, s'.ledger)
  {
    CompletionKeepsAccount(s.calls[id], Past(s.ledger, id), 0);
    BooksAfterUpdate(s.calls, s.ledger, id, s.calls[id].(resolving := false), OneMore(s.ledger, id)[id]);
  }
}
