/** What was handed to the swarm: the histories record every request and lookup, and nothing else was sent. */
module NodeSends {
  import opened Types
  import opened Calls
  import opened NodeSpec

  function PeersAsked(sent: seq<Sent>, id: nat): seq<Peer> {
    if sent == [] then []
    else
      var last := sent[|sent| - 1];
      PeersAsked(sent[..|sent| - 1], id) + (if last.call == id then [last.peer] else [])
  }

  function PeersLooked(queries: seq<Query>, id: nat): seq<Peer> {
    if queries == [] then []
    else
      var last := queries[|queries| - 1];
      PeersLooked(queries[..|queries| - 1], id)
      + (if last.ClosestTo? && last.call == id then [last.peer] else [])
  }

  ghost predicate RequestsRecorded(sent: seq<Sent>, ledger: map<nat, History>) {
    && (forall id :: id in ledger ==> PeersAsked(sent, id) == ledger[id].asked)
    && (forall i :: 0 <= i < |sent| ==> sent[i].call in ledger && sent[i].frame == ledger[sent[i].call].frame)
  }

  ghost predicate LookupsRecorded(queries: seq<Query>, ledger: map<nat, History>) {
    && (forall id :: id in ledger ==> PeersLooked(queries, id) == ledger[id].looked)
    && (forall i :: 0 <= i < |queries| && queries[i].ClosestTo? ==> queries[i].call in ledger)
  }

  lemma {:induction false} NothingAsked(sent: seq<Sent>, id: nat)
    requires forall i :: 0 <= i < |sent| ==> sent[i].call != id
    ensures PeersAsked(sent, id) == []
  {
    if sent != [] {
      NothingAsked(sent[..|sent| - 1], id);
    }
  }

  lemma {:induction false} NothingLooked(queries: seq<Query>, id: nat)
    requires forall i :: 0 <= i < |queries| && queries[i].ClosestTo? ==> queries[i].call != id
    ensures PeersLooked(queries, id) == []
  {
    if queries != [] {
      NothingLooked(queries[..|queries| - 1], id);
    }
  }

  // -------- histories

  lemma SameSends(sent: seq<Sent>, queries: seq<Query>, ledger: map<nat, History>, id: nat, h: History)
    requires RequestsRecorded(sent, ledger) && LookupsRecorded(queries, ledger) && id in ledger
    requires h.asked == ledger[id].asked && h.looked == ledger[id].looked && h.frame == ledger[id].frame
    ensures RequestsRecorded(sent, ledger[id := h]) && LookupsRecorded(queries, ledger[id := h])
  {
  }

  lemma NewSends(sent: seq<Sent>, queries: seq<Query>, ledger: map<nat, History>, id: nat, h: History)
    requires RequestsRecorded(sent, ledger) && LookupsRecorded(queries, ledger) && id !in ledger
    requires h.asked == [] && h.looked == []
    ensures RequestsRecorded(sent, ledger[id := h]) && LookupsRecorded(queries, ledger[id := h])
  {
    NothingAsked(sent, id);
    NothingLooked(queries, id);
  }

  lemma RequestRecorded(sent: seq<Sent>, ledger: map<nat, History>, id: nat, peer: Peer, h: History)
    requires RequestsRecorded(sent, ledger) && id in ledger
    requires h.asked == ledger[id].asked + [peer] && h.frame == ledger[id].frame
    ensures RequestsRecorded(sent + [Sent(id, peer, h.frame)], ledger[id := h])
  {
    var sent' := sent + [Sent(id, peer, h.frame)];
    assert sent'[..|sent'| - 1] == sent;
  }

  lemma LookupRecorded(queries: seq<Query>, ledger: map<nat, History>, id: nat, peer: Peer, h: History)
    requires LookupsRecorded(queries, ledger) && id in ledger
    requires h.looked == ledger[id].looked + [peer]
    ensures LookupsRecorded(queries + [ClosestTo(id, peer)], ledger[id := h])
  {
    var queries' := queries + [ClosestTo(id, peer)];
    assert queries'[..|queries'| - 1] == queries;
  }

  lemma OtherQuery(queries: seq<Query>, ledger: map<nat, History>, query: Query)
    requires LookupsRecorded(queries, ledger) && !query.ClosestTo?
    ensures LookupsRecorded(queries + [query], ledger)
  {
    var queries' := queries + [query];
    assert queries'[..|queries'| - 1] == queries;
  }

  // -------- one try

  lemma AskKeepsSends(s: State, id: nat, c: Call, pick: Pick)
    requires RequestsRecorded(s.sent, s.ledger) && LookupsRecorded(s.queries, s.ledger)
    requires id in s.ledger && c.frame == s.ledger[id].frame && pick.choice.Ask?
    ensures var s' := Act(s, id, c, pick);
            RequestsRecorded(s'.sent, s'.ledger) && LookupsRecorded(s'.queries, s'.ledger)
  {
    var h := HistoryAfter(s.ledger[id], pick);
    RequestRecorded(s.sent, s.ledger, id, pick.choice.peer, h);
    LookupsUntouched(s.queries, s.ledger, id, h);
  }

  lemma LookupsUntouched(queries: seq<Query>, ledger: map<nat, History>, id: nat, h: History)
    requires LookupsRecorded(queries, ledger) && id in ledger && h.looked == ledger[id].looked
    ensures LookupsRecorded(queries, ledger[id := h])
  {
  }

  lemma RequestsUntouched(sent: seq<Sent>, ledger: map<nat, History>, id: nat, h: History)
    requires RequestsRecorded(sent, ledger) && id in ledger
    requires h.asked == ledger[id].asked && h.frame == ledger[id].frame
    ensures RequestsRecorded(sent, ledger[id := h])
  {
  }

  lemma ResolveKeepsSends(s: State, id: nat, c: Call, pick: Pick)
    requires RequestsRecorded(s.sent, s.ledger) && LookupsRecorded(s.queries, s.ledger)
    requires id in s.ledger && pick.choice.Resolve?
    ensures var s' := Act(s, id, c, pick);
            RequestsRecorded(s'.sent, s'.ledger) && LookupsRecorded(s'.queries, s'.ledger)
  {
    var h := HistoryAfter(s.ledger[id], pick);
    LookupRecorded(s.queries, s.ledger, id, pick.choice.peer, h);
    RequestsUntouched(s.sent, s.ledger, id, h);
  }

  lemma NobodyKeepsSends(s: State, id: nat, c: Call, pick: Pick)
    requires RequestsRecorded(s.sent, s.ledger) && LookupsRecorded(s.queries, s.ledger)
    requires id in s.ledger && pick.choice.Nobody?
    ensures var s' := Act(s, id, c, pick);
            RequestsRecorded(s'.sent, s'.ledger) && LookupsRecorded(s'.queries, s'.ledger)
  {
    var h := HistoryAfter(s.ledger[id], pick);
    if c.lookupRunning {
      TryShape(s, id, c, pick);
      SameSends(s.sent, s.queries, s.ledger, id, h);
    } else {
      GiveUpShape(s, id, c, pick);
      SameSends(s.sent, s.queries, s.ledger, id, h.(outcome := Exhausted(c.lastFailure)));
    }
  }
}
