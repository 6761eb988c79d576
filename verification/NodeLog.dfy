/** What the caller is told: per call one outcome when it is over, per search its finds and one result. */
module NodeLog {
  import opened Types
  import opened Calls
  import opened NodeSpec

  /** The events that carry `id`, in the order they were emitted. */
  function EventsOf(log: seq<Event>, id: nat): seq<Event> {
    if log == [] then []
    else
      var last := log[|log| - 1];
      EventsOf(log[..|log| - 1], id) + (if last.id == id then [last] else [])
  }

  lemma {:induction false} EventsAppended(log: seq<Event>, more: seq<Event>, from: nat, id: nat)
    requires forall e :: e in more ==> e.id == from
    ensures EventsOf(log + more, id) == EventsOf(log, id) + (if id == from then more else [])
  {
    if more == [] {
      assert log + more == log;
    } else {
      var last := more[|more| - 1];
      assert more == more[..|more| - 1] + [last];
      assert last in more;
      assert forall e :: e in more[..|more| - 1] ==> e in more;
      EventsAppended(log, more[..|more| - 1], from, id);
      assert (log + more)[..|log + more| - 1] == log + more[..|more| - 1];
    }
  }

  /** The outcome event of a call: none while it is live. */
  function Told(prims: Primitives, id: nat, h: History): seq<Event> {
    match h.outcome
    case Pending => []
    case Exhausted(reason) => [RpcFailed(id, h.group, h.protocol, reason)]
    case TimedOut => [RpcFailed(id, h.group, h.protocol, FAIL_TIMEOUT)]
    case Answered(peer, frame, nowMs) =>
      match Accept(prims, peer, h.group, frame, nowMs)
      case Some(a) => [RpcResponse(id, h.group, a.node, h.protocol, a.payload)]
      case None => []
  }

  ghost predicate CallsTold(prims: Primitives, log: seq<Event>, ledger: map<nat, History>) {
    forall id :: id in ledger ==> EventsOf(log, id) == Told(prims, id, ledger[id])
  }

  /** The events of a search: what it found, then its result once it has ended. */
  function Shown(id: nat, search: Search): seq<Event> {
    search.found + (if search.result.Some? then [DhtResult(id, search.result.value)] else [])
  }

  ghost predicate SearchesTold(log: seq<Event>, searches: map<nat, Search>) {
    forall id :: id in searches ==>
      && EventsOf(log, id) == Shown(id, searches[id])
      && forall e :: e in searches[id].found ==> e.Discovered? && e.id == id
  }

  /** Every event belongs to a call or a search that was started, and no id to both. */
  ghost predicate OnlyKnown(log: seq<Event>, ledger: map<nat, History>, searches: map<nat, Search>) {
    && (forall e :: e in log ==> e.id in ledger || e.id in searches)
    && (forall id :: id in ledger ==> id !in searches)
  }

  ghost predicate AllTold(prims: Primitives, log: seq<Event>, ledger: map<nat, History>, searches: map<nat, Search>) {
    CallsTold(prims, log, ledger) && SearchesTold(log, searches) && OnlyKnown(log, ledger, searches)
  }

  lemma {:induction false} NothingOfUnknown(log: seq<Event>, id: nat)
    requires forall e :: e in log ==> e.id != id
    ensures EventsOf(log, id) == []
  {
    if log != [] {
      assert log[|log| - 1] in log;
      assert forall e :: e in log[..|log| - 1] ==> e in log;
      NothingOfUnknown(log[..|log| - 1], id);
    }
  }

  // -------- calls

  /** A history that goes on without saying anything. */
  lemma QuietHistory(prims: Primitives, log: seq<Event>, ledger: map<nat, History>, searches: map<nat, Search>,
                     id: nat, h: History)
    requires AllTold(prims, log, ledger, searches) && id in ledger
    requires h.outcome.Pending? && ledger[id].outcome.Pending?
    ensures AllTold(prims, log, ledger[id := h], searches)
  {
  }

  lemma NewHistory(prims: Primitives, log: seq<Event>, ledger: map<nat, History>, searches: map<nat, Search>, id: nat,
                   h: History)
    requires AllTold(prims, log, ledger, searches) && id !in ledger && id !in searches && h.outcome.Pending?
    ensures AllTold(prims, log, ledger[id := h], searches)
  {
    NothingOfUnknown(log, id);
  }

  lemma LastWord(prims: Primitives, log: seq<Event>, ledger: map<nat, History>, searches: map<nat, Search>, id: nat,
                 h: History, e: Event)
    requires AllTold(prims, log, ledger, searches) && id in ledger && ledger[id].outcome.Pending?
    requires e.id == id && Told(prims, id, h) == [e]
    ensures AllTold(prims, log + [e], ledger[id := h], searches)
  {
    forall i
      ensures EventsOf(log + [e], i) == EventsOf(log, i) + (if i == id then [e] else [])
    {
      EventsAppended(log, [e], id, i);
    }
    CallsAfterLastWord(prims, log, ledger, id, h, e);
    SearchesAfterLastWord(log, searches, id, e);
  }

  lemma CallsAfterLastWord(prims: Primitives, log: seq<Event>, ledger: map<nat, History>, id: nat, h: History, e: Event)
    requires CallsTold(prims, log, ledger) && id in ledger && ledger[id].outcome.Pending?
    requires Told(prims, id, h) == [e]
    requires forall i :: EventsOf(log + [e], i) == EventsOf(log, i) + (if i == id then [e] else [])
    ensures CallsTold(prims, log + [e], ledger[id := h])
  {
  }

  lemma SearchesAfterLastWord(log: seq<Event>, searches: map<nat, Search>, id: nat, e: Event)
    requires SearchesTold(log, searches) && id !in searches
    requires forall i :: EventsOf(log + [e], i) == EventsOf(log, i) + (if i == id then [e] else [])
    ensures SearchesTold(log + [e], searches)
  {
  }

  // -------- searches

  lemma NewSearch(prims: Primitives, log: seq<Event>, ledger: map<nat, History>, searches: map<nat, Search>, id: nat,
                  query: nat)
    requires AllTold(prims, log, ledger, searches) && id !in ledger && id !in searches
    ensures AllTold(prims, log, ledger, searches[id := Search(query, [], None)])
    ensures forall r :: AllTold(prims, log + [DhtResult(id, r)], ledger, searches[id := Search(query, [], Some(r))])
  {
    NothingOfUnknown(log, id);
    forall r
      ensures AllTold(prims, log + [DhtResult(id, r)], ledger, searches[id := Search(query, [], Some(r))])
    {
      SearchSays(prims, log, ledger, searches[id := Search(query, [], None)], id, [DhtResult(id, r)],
                 Search(query, [], Some(r)));
      assert searches[id := Search(query, [], None)][id := Search(query, [], Some(r))]
             == searches[id := Search(query, [], Some(r))];
    }
  }

  lemma SearchSays(prims: Primitives, log: seq<Event>, ledger: map<nat, History>, searches: map<nat, Search>,
                   id: nat, events: seq<Event>, search: Search)
    requires AllTold(prims, log, ledger, searches) && id in searches
    requires forall e :: e in events ==> e.id == id
    requires Shown(id, search) == Shown(id, searches[id]) + events
    requires forall e :: e in search.found ==> e.Discovered? && e.id == id
    ensures AllTold(prims, log + events, ledger, searches[id := search])
  {
    forall i
      ensures EventsOf(log + events, i) == EventsOf(log, i) + (if i == id then events else [])
    {
      EventsAppended(log, events, id, i);
    }
    CallsWhileSearching(prims, log, ledger, id, events);
  }

  lemma CallsWhileSearching(prims: Primitives, log: seq<Event>, ledger: map<nat, History>, id: nat, events: seq<Event>)
    requires CallsTold(prims, log, ledger) && id !in ledger
    requires forall i :: EventsOf(log + events, i) == EventsOf(log, i) + (if i == id then events else [])
    ensures CallsTold(prims, log + events, ledger)
  {
  }
}
