/** What one step may add to the history of a call: peers it gives up, peers it hears of, the reply it accepts. */
module NodeTraces {
  import opened Types
  import opened AddressBooks
  import opened Calls
  import opened NodeSpec
  import opened CallAccount
  import opened CallRights
  import opened NodeSteps

  /** An accepted reply as the history keeps it. */
  datatype Word = Word(id: nat, outcome: Outcome)

  /** `lookup` is the provider lookup a step starts, if it does. */
  datatype Trace = Trace(dialable: set<Peer>, hearer: nat, heard: set<Peer>, word: Option<Word>, lookup: Option<nat>)

  function Quiet(dialable: set<Peer>): Trace {
    Trace(dialable, 0, {}, None, None)
  }

  predicate TracedOne(h: History, h': History, id: nat, t: Trace) {
    && (forall p :: p in h'.dropped ==> p in h.dropped || p !in t.dialable)
    && h'.reported == h.reported + (if id == t.hearer then t.heard else {})
    && (h'.outcome.Answered? ==> h'.outcome == h.outcome || t.word == Some(Word(id, h'.outcome)))
  }

  ghost predicate LookupsTraced(s: State, s': State, t: Trace) {
    forall q :: q in s'.providerLookups ==>
      (q in s.providerLookups && s'.providerLookups[q] == s.providerLookups[q]) || t.lookup == Some(q)
  }

  ghost predicate Traced(s: State, s': State, t: Trace) {
    && (forall id {:trigger Past(s'.ledger, id)} :: TracedOne(Past(s.ledger, id), Past(s'.ledger, id), id, t))
    && LookupsTraced(s, s', t)
  }

  // -------- one part of a handler after the other

  lemma ThenQuiet(s: State, m: State, s': State, t: Trace)
    requires Traced(s, m, t) && Traced(m, s', Quiet(t.dialable))
    ensures Traced(s, s', t)
  {
    forall id
      ensures TracedOne(Past(s.ledger, id), Past(s'.ledger, id), id, t)
    {
      assert TracedOne(Past(s.ledger, id), Past(m.ledger, id), id, t);
      assert TracedOne(Past(m.ledger, id), Past(s'.ledger, id), id, Quiet(t.dialable));
    }
  }

  lemma QuietThen(s: State, m: State, s': State, t: Trace)
    requires Traced(s, m, Quiet(t.dialable)) && Traced(m, s', t)
    ensures Traced(s, s', t)
  {
    forall id
      ensures TracedOne(Past(s.ledger, id), Past(s'.ledger, id), id, t)
    {
      assert TracedOne(Past(s.ledger, id), Past(m.ledger, id), id, Quiet(t.dialable));
      assert TracedOne(Past(m.ledger, id), Past(s'.ledger, id), id, t);
    }
  }

  lemma SameLedger(s: State, s': State, dialable: set<Peer>)
    requires s'.ledger == s.ledger && s'.providerLookups.Keys <= s.providerLookups.Keys
    requires forall q :: q in s'.providerLookups ==> s'.providerLookups[q] == s.providerLookups[q]
    ensures Traced(s, s', Quiet(dialable))
  {
  }

  lemma OneHistory(s: State, s': State, id: nat, h: History, t: Trace)
    requires s'.ledger == s.ledger[id := h] && TracedOne(Past(s.ledger, id), h, id, t)
    requires t.heard == {} || t.hearer == id
    requires LookupsTraced(s, s', t)
    ensures Traced(s, s', t)
  {
  }

  // -------- the parts

  lemma ActTraced(s: State, id: nat, c: Call, pick: Pick, dialable: set<Peer>)
    requires forall p :: p in pick.dropped ==> p !in dialable
    ensures Traced(s, Act(s, id, c, pick), Quiet(dialable))
  {
    var h := HistoryAfter(Past(s.ledger, id), pick);
    HistoryTraced(Past(s.ledger, id), pick, id, dialable);
    if pick.choice.Nobody? && !c.lookupRunning {
      GiveUpShape(s, id, c, pick);
      OneHistory(s, Act(s, id, c, pick), id, h.(outcome := Exhausted(c.lastFailure)), Quiet(dialable));
    } else {
      TryShape(s, id, c, pick);
      OneHistory(s, Act(s, id, c, pick), id, h, Quiet(dialable));
    }
  }

  lemma HistoryTraced(h: History, pick: Pick, id: nat, dialable: set<Peer>)
    requires forall p :: p in pick.dropped ==> p !in dialable
    ensures TracedOne(h, HistoryAfter(h, pick), id, Quiet(dialable))
  {
    match pick.choice
    case Ask(_) =>
    case Resolve(_) =>
    case Nobody =>
  }

  lemma AdvanceTraced(s: State, id: nat, connected: set<Peer>)
    ensures Traced(s, NodeSpec.Advance(s, id, connected), Quiet(connected + s.book.addresses.Keys))
  {
    var dialable := connected + s.book.addresses.Keys;
    if id in s.calls && !s.calls[id].inFlight && !s.calls[id].resolving {
      var c := s.calls[id];
      ChooseSplits(c.candidates, c.resolved, dialable);
      ActTraced(s, id, c, Choose(c.candidates, c.resolved, dialable), dialable);
    } else {
      SameLedger(s, s, dialable);
    }
  }

  lemma AdvanceKeepsMemory(s: State, id: nat, connected: set<Peer>)
    ensures var s' := NodeSpec.Advance(s, id, connected);
            s'.book == s.book && s'.failed == s.failed && s'.lastSuccess == s.lastSuccess
  {
    if id in s.calls && !s.calls[id].inFlight && !s.calls[id].resolving {
      var c := s.calls[id];
      ActLeaves(s, id, c, Choose(c.candidates, c.resolved, connected + s.book.addresses.Keys));
    }
  }

  lemma EndTraced(s: State, id: nat, outcome: Outcome, event: Event, dialable: set<Peer>)
    requires !outcome.Answered?
    ensures Traced(s, End(s, id, outcome, event), Quiet(dialable))
  {
    OneHistory(s, End(s, id, outcome, event), id, Past(s.ledger, id).(outcome := outcome), Quiet(dialable));
  }

  lemma CompleteTraced(s: State, id: nat, c: Call, dialable: set<Peer>)
    ensures Traced(s, Complete(s, id, c), Quiet(dialable)) && Complete(s, id, c).book == s.book
  {
    OneHistory(s, Complete(s, id, c), id, OneMore(s.ledger, id)[id], Quiet(dialable));
  }

  lemma LookupEndsTraced(s: State, query: nat, id: nat, dialable: set<Peer>)
    ensures Traced(s, LookupEnds(s, query, id), Quiet(dialable)) && LookupEnds(s, query, id).book == s.book
  {
    SameLedger(s, LookupEnds(s, query, id), dialable);
  }

  lemma RequestEndsTraced(s: State, request: nat, failure: nat, dialable: set<Peer>)
    requires request in s.outbound
    ensures Traced(s, RequestEnds(s, request, failure), Quiet(dialable))
    ensures RequestEnds(s, request, failure).book == s.book
  {
    var id := s.outbound[request];
    var s' := s.(outbound := s.outbound - {request}, requestOf := s.requestOf - {id});
    SameLedger(s, s', dialable);
    if id in s.calls {
      var c := s.calls[id].(inFlight := false, lastFailure := failure);
      CompleteTraced(s', id, c, dialable);
      QuietThen(s, s', Complete(s', id, c), Quiet(dialable));
    }
  }

  lemma ResolutionEndsTraced(s: State, query: nat, dialable: set<Peer>)
    requires query in s.resolutions
    ensures Traced(s, ResolutionEnds(s, query), Quiet(dialable)) && ResolutionEnds(s, query).book == s.book
  {
    var id := s.resolutions[query];
    var s' := s.(resolutions := s.resolutions - {query}, resolutionOf := s.resolutionOf - {id});
    SameLedger(s, s', dialable);
    if id in s.calls {
      var c := s.calls[id].(resolving := false);
      CompleteTraced(s', id, c, dialable);
      QuietThen(s, s', Complete(s', id, c), Quiet(dialable));
    }
  }

  /** The one candidate a pinned call starts with. */
  function Pinned(cfg: Config, node: Option<Key>): set<Peer> {
    if node.Some? then Target(cfg.prims, node.value) else {}
  }

  lemma LookingTraced(s: State, cfg: Config, id: nat, group: Key, node: Option<Key>, protocol: nat,
                      payload: Bytes, deadline: Time, dialable: set<Peer>)
    requires id !in s.ledger && protocol < |cfg.rpcProtocols|
    ensures var s' := Looking(s, cfg, id, group, node, protocol, payload, deadline);
            Traced(s, s', Trace(dialable, id, Pinned(cfg, node), None, Some(|s.queries|))) && s'.book == s.book
  {
    var s' := Looking(s, cfg, id, group, node, protocol, payload, deadline);
    PinnedReport(cfg, node);
    OneHistory(s, s', id, s'.ledger[id], Trace(dialable, id, Pinned(cfg, node), None, Some(|s.queries|)));
  }

  lemma PinnedReport(cfg: Config, node: Option<Key>)
    ensures var target := if node.Some? then cfg.prims.peerOf(node.value) else None;
            Elements(if target.Some? then [target.value] else []) == Pinned(cfg, node)
  {
  }

  lemma HearTraced(s: State, cfg: Config, id: nat, reports: seq<Report>, dialable: set<Peer>)
    requires id in s.calls
    ensures var s' := Hear(s, cfg, id, reports);
            Traced(s, s', Trace(dialable, id, Reported(reports, cfg.localPeer), None, None)) && s'.book == s.book
  {
    var h := Past(s.ledger, id);
    OneHistory(s, Hear(s, cfg, id, reports), id, h.(reported := h.reported + Reported(reports, cfg.localPeer)),
               Trace(dialable, id, Reported(reports, cfg.localPeer), None, None));
  }

  lemma AnswersChange(s: State, id: nat, peer: Peer, frame: Bytes, nowMs: nat, answer: Answer)
    requires id in s.calls
    ensures var s' := NodeSpec.Answers(s, id, peer, frame, nowMs, answer);
            && s'.ledger == s.ledger[id := Past(s.ledger, id).(outcome := Answered(peer, frame, nowMs))]
            && s'.providerLookups == s.providerLookups
  {
  }

  lemma AnswersTraced(s: State, id: nat, peer: Peer, frame: Bytes, nowMs: nat, answer: Answer, dialable: set<Peer>)
    requires id in s.calls
    ensures var word := Word(id, Answered(peer, frame, nowMs));
            Traced(s, NodeSpec.Answers(s, id, peer, frame, nowMs, answer), Trace(dialable, 0, {}, Some(word), None))
  {
    hide NodeSpec.Answers;
    AnswersChange(s, id, peer, frame, nowMs, answer);
    var outcome := Answered(peer, frame, nowMs);
    OneHistory(s, NodeSpec.Answers(s, id, peer, frame, nowMs, answer), id, Past(s.ledger, id).(outcome := outcome),
               Trace(dialable, 0, {}, Some(Word(id, outcome)), None));
  }

  // -------- what a step adds

  /** The peers a handler finds connected. */
  function ConnectedIn(step: Step): set<Peer> {
    match step
    case DoCall(_, _, _, _, _, _, connected) => connected
    case OnProviders(_, _, _, connected) => connected
    case OnClosest(_, _, connected) => connected
    case OnFailure(_, _, _, _, connected) => connected
    case OnReply(_, _, _, _, _, connected) => connected
    case _ => {}
  }

  /**
    * The peers a step reports for the call `id`: the pinned one when it starts, or the providers other than the
    * node itself in a DHT result for its lookup, while it is live.
    */
  function HeardIn(cfg: Config, s: State, step: Step, id: nat): set<Peer> {
    match step
    case DoCall(id', _, node, _, _, _, _) => if id' == id then Pinned(cfg, node) else {}
    case OnProviders(query, reports, _, _) =>
      if LooksFor(s, query, id) && id in s.calls then Reported(reports, cfg.localPeer) else {}
    case _ => {}
  }

  /** The query is the provider lookup of the call. */
  predicate LooksFor(s: State, query: nat, id: nat) {
    && query in s.providerLookups && s.providerLookups[query] == id
    && query !in s.topicLookups && query !in s.providerQueries
  }

  /** The call that hears something in a step, if one does. */
  function HearerIn(s: State, step: Step): nat {
    match step
    case DoCall(id, _, _, _, _, _, _) => id
    case OnProviders(query, _, _, _) => if query in s.providerLookups then s.providerLookups[query] else 0
    case _ => 0
  }

  /** The reply a step accepts, if it does. */
  function WordIn(cfg: Config, s: State, step: Step): Option<Word> {
    match step
    case OnReply(peer, request, frame, nowMs, _, _) =>
      if request in s.outbound && s.outbound[request] in s.calls
         && Accept(cfg.prims, peer, s.calls[s.outbound[request]].group, frame, nowMs).Some?
      then Some(Word(s.outbound[request], Answered(peer, frame, nowMs))) else None
    case _ => None
  }

  function TraceOf(cfg: Config, s: State, step: Step, book: Book): Trace {
    var id := HearerIn(s, step);
    Trace(ConnectedIn(step) + book.addresses.Keys, id, HeardIn(cfg, s, step, id), WordIn(cfg, s, step),
          if step.DoCall? then Some(|s.queries|) else None)
  }

  // -------- the steps

  lemma StartTraced(s: State, cfg: Config, step: Step)
    requires Enabled(s, cfg, step) && step.DoCall?
    ensures Traced(s, Next(s, cfg, step), TraceOf(cfg, s, step, Next(s, cfg, step).book))
  {
    hide Traced, NodeSpec.Advance, Looking;
    var m := Looking(s, cfg, step.id, step.group, step.node, step.protocol, step.payload, step.deadline);
    var t := TraceOf(cfg, s, step, s.book);
    LookingTraced(s, cfg, step.id, step.group, step.node, step.protocol, step.payload, step.deadline, t.dialable);
    AdvanceTraced(m, step.id, step.connected);
    AdvanceKeepsMemory(m, step.id, step.connected);
    ThenQuiet(s, m, NodeSpec.Advance(m, step.id, step.connected), t);
  }

  lemma {:induction false} ExpireTraced(s: State, order: seq<nat>, dialable: set<Peer>)
    ensures Traced(s, Expire(s, order), Quiet(dialable))
  {
    if order == [] {
      SameLedger(s, s, dialable);
    } else {
      var before, id := Expire(s, order[..|order| - 1]), order[|order| - 1];
      ExpireTraced(s, order[..|order| - 1], dialable);
      ExpireOneTraced(before, id, dialable);
      ThenQuiet(s, before, ExpireOne(before, id), Quiet(dialable));
    }
  }

  lemma ExpireOneTraced(s: State, id: nat, dialable: set<Peer>)
    ensures Traced(s, ExpireOne(s, id), Quiet(dialable))
  {
    if id in s.calls {
      var c := s.calls[id];
      EndTraced(s, id, TimedOut, RpcFailed(id, c.group, c.protocol, FAIL_TIMEOUT), dialable);
    } else {
      SameLedger(s, s, dialable);
    }
  }

  lemma LookupProgressTraced(s: State, query: nat, id: nat, last: bool, connected: set<Peer>)
    ensures var s' := NodeSpec.Advance(if last then LookupEnds(s, query, id) else s, id, connected);
            Traced(s, s', Quiet(connected + s.book.addresses.Keys)) && s'.book == s.book
  {
    hide Traced, NodeSpec.Advance, LookupEnds;
    var dialable := connected + s.book.addresses.Keys;
    if last {
      var m := LookupEnds(s, query, id);
      LookupEndsTraced(s, query, id, dialable);
      AdvanceTraced(m, id, connected);
      AdvanceKeepsMemory(m, id, connected);
      QuietThen(s, m, NodeSpec.Advance(m, id, connected), Quiet(dialable));
    } else {
      AdvanceTraced(s, id, connected);
      AdvanceKeepsMemory(s, id, connected);
    }
  }

  lemma CallProvidersTraced(s: State, cfg: Config, step: Step)
    requires step.OnProviders? && step.query in s.providerLookups
    requires step.query !in s.topicLookups && step.query !in s.providerQueries
    ensures var s' := ProvidersFound(s, cfg, step.query, step.reports, step.last, step.connected);
            Traced(s, s', TraceOf(cfg, s, step, s'.book))
  {
    hide Traced, NodeSpec.Advance, LookupEnds, Hear;
    var query, id := step.query, s.providerLookups[step.query];
    var t := TraceOf(cfg, s, step, s.book);
    if id in s.calls {
      var m := Hear(s, cfg, id, step.reports);
      HearTraced(s, cfg, id, step.reports, t.dialable);
      LookupProgressTraced(m, query, id, step.last, step.connected);
      ThenQuiet(s, m, ProvidersFound(s, cfg, query, step.reports, step.last, step.connected), t);
    } else {
      LookupProgressTraced(s, query, id, step.last, step.connected);
      NothingHeard(s, NodeSpec.Advance(if step.last then LookupEnds(s, query, id) else s, id, step.connected), t);
    }
  }

  lemma NothingHeard(s: State, s': State, t: Trace)
    requires Traced(s, s', Quiet(t.dialable)) && t.heard == {}
    ensures Traced(s, s', t)
  {
    forall id
      ensures TracedOne(Past(s.ledger, id), Past(s'.ledger, id), id, t)
    {
      assert TracedOne(Past(s.ledger, id), Past(s'.ledger, id), id, Quiet(t.dialable));
    }
  }

  lemma TopicProvidersTraced(s: State, cfg: Config, query: nat, reports: seq<Report>, last: bool, connected: set<Peer>,
                             dialable: set<Peer>)
    requires query in s.topicLookups
    ensures Traced(s, ProvidersFound(s, cfg, query, reports, last, connected), Quiet(dialable))
  {
    if last {
      SameLedger(s, s.(topicLookups := s.topicLookups - {query}), dialable);
    } else {
      SameLedger(s, s, dialable);
    }
  }

  lemma SearchProvidersTraced(s: State, cfg: Config, query: nat, reports: seq<Report>, last: bool, connected: set<Peer>,
                              dialable: set<Peer>)
    requires query !in s.topicLookups && query in s.providerQueries
    ensures Traced(s, ProvidersFound(s, cfg, query, reports, last, connected), Quiet(dialable))
  {
    var id := s.providerQueries[query];
    var events := ProviderEvents(cfg, s.book, id, reports);
    var shown := Emit(s, id, events);
    SameLedger(s, shown, dialable);
    if last {
      SameLedger(s, Finish(shown.(providerQueries := s.providerQueries - {query}), id, 0), dialable);
    }
  }

  lemma ProvidersTraced(s: State, cfg: Config, step: Step)
    requires step.OnProviders?
    ensures var s' := ProvidersFound(s, cfg, step.query, step.reports, step.last, step.connected);
            Traced(s, s', TraceOf(cfg, s, step, s'.book))
  {
    hide Traced;
    var s' := ProvidersFound(s, cfg, step.query, step.reports, step.last, step.connected);
    var t := TraceOf(cfg, s, step, s'.book);
    if step.query in s.topicLookups {
      TopicProvidersTraced(s, cfg, step.query, step.reports, step.last, step.connected, t.dialable);
      NothingHeard(s, s', t);
    } else if step.query in s.providerQueries {
      SearchProvidersTraced(s, cfg, step.query, step.reports, step.last, step.connected, t.dialable);
      NothingHeard(s, s', t);
    } else if step.query in s.providerLookups {
      CallProvidersTraced(s, cfg, step);
    } else {
      SameLedger(s, s, t.dialable);
      NothingHeard(s, s, t);
    }
  }

  lemma ClosestTraced(s: State, query: nat, events: seq<Event>, connected: set<Peer>)
    ensures var s' := Closest(s, query, events, connected);
            Traced(s, s', Quiet(connected + s.book.addresses.Keys)) && s'.book == s.book
  {
    hide Traced, NodeSpec.Advance, ResolutionEnds;
    var dialable := connected + s.book.addresses.Keys;
    if query in s.resolutions {
      var m := ResolutionEnds(s, query);
      ResolutionEndsTraced(s, query, dialable);
      AdvanceTraced(m, s.resolutions[query], connected);
      AdvanceKeepsMemory(m, s.resolutions[query], connected);
      QuietThen(s, m, NodeSpec.Advance(m, s.resolutions[query], connected), Quiet(dialable));
    } else if query in s.walks {
      SameLedger(s, Closest(s, query, events, connected), dialable);
    } else {
      SameLedger(s, s, dialable);
    }
  }

  lemma ClosestFoundTraced(s: State, cfg: Config, query: nat, found: seq<Found>, connected: set<Peer>)
    ensures var s' := ClosestFound(s, cfg, query, found, connected);
            Traced(s, s', Quiet(connected + s'.book.addresses.Keys))
  {
    hide Traced, Closest;
    var walk := if query in s.walks then s.walks[query] else 0;
    var m := s.(book := LearnAll(s.book, found));
    var dialable := connected + m.book.addresses.Keys;
    SameLedger(s, m, dialable);
    ClosestTraced(m, query, FoundEvents(cfg, walk, found), connected);
    QuietThen(s, m, ClosestFound(s, cfg, query, found, connected), Quiet(dialable));
  }

  lemma FailureTraced(s: State, peer: Peer, request: nat, error: SendError, now: Time, connected: set<Peer>)
    ensures var s' := RequestFailed(s, peer, request, error, now, connected);
            Traced(s, s', Quiet(connected + s'.book.addresses.Keys))
  {
    hide Traced, NodeSpec.Advance, RequestEnds, RememberFailure;
    var m := s.(failed := RememberFailure(s.failed, peer, now));
    var dialable := connected + s.book.addresses.Keys;
    SameLedger(s, m, dialable);
    if request in s.outbound {
      var done := RequestEnds(m, request, FailureOf(error));
      RequestEndsTraced(m, request, FailureOf(error), dialable);
      QuietThen(s, m, done, Quiet(dialable));
      AdvanceTraced(done, s.outbound[request], connected);
      AdvanceKeepsMemory(done, s.outbound[request], connected);
      QuietThen(s, done, NodeSpec.Advance(done, s.outbound[request], connected), Quiet(dialable));
    }
  }

  lemma RefusalTraced(s: State, id: nat, failed: map<Peer, Time>, connected: set<Peer>)
    ensures var s' := NodeSpec.Advance(s.(failed := failed), id, connected);
            Traced(s, s', Quiet(connected + s.book.addresses.Keys)) && s'.book == s.book
  {
    hide Traced, NodeSpec.Advance;
    var m, dialable := s.(failed := failed), connected + s.book.addresses.Keys;
    SameLedger(s, m, dialable);
    AdvanceTraced(m, id, connected);
    AdvanceKeepsMemory(m, id, connected);
    QuietThen(s, m, NodeSpec.Advance(m, id, connected), Quiet(dialable));
  }

  lemma AnswersKeepBook(s: State, id: nat, peer: Peer, frame: Bytes, nowMs: nat, answer: Answer)
    requires id in s.calls
    ensures NodeSpec.Answers(s, id, peer, frame, nowMs, answer).book == s.book
  {
  }

  lemma ReplyTraced(s: State, cfg: Config, step: Step)
    requires step.OnReply?
    ensures var s' := Next(s, cfg, step);
            Traced(s, s', TraceOf(cfg, s, step, s'.book))
    requires Enabled(s, cfg, step)
  {
    hide Traced, NodeSpec.Advance, NodeSpec.Answers, RequestEnds, Accept, RememberFailure;
    var t := TraceOf(cfg, s, step, s.book);
    if step.request in s.outbound {
      var id, done := s.outbound[step.request], RequestEnds(s, step.request, FAIL_REFUSED);
      RequestEndsTraced(s, step.request, FAIL_REFUSED, t.dialable);
      RequestEndLeaves(s, step.request, FAIL_REFUSED);
      if id in s.calls {
        match Accept(cfg.prims, step.peer, s.calls[id].group, step.frame, step.nowMs)
        case Some(answer) =>
          AnswersTraced(done, id, step.peer, step.frame, step.nowMs, answer, t.dialable);
          AnswersKeepBook(done, id, step.peer, step.frame, step.nowMs, answer);
          QuietThen(s, done, NodeSpec.Answers(done, id, step.peer, step.frame, step.nowMs, answer), t);
        case None =>
          RefusalTraced(done, id, RememberFailure(s.failed, step.peer, step.now), step.connected);
          QuietThen(s, done, Next(s, cfg, step), Quiet(t.dialable));
      }
    } else {
      SameLedger(s, s, t.dialable);
    }
  }

  lemma BootstrapTraced(s: State, query: nat, ok: bool, last: bool, dialable: set<Peer>)
    ensures Traced(s, BootstrapProgressed(s, query, ok, last), Quiet(dialable))
  {
    if last && query in s.bootstraps {
      SameLedger(s, BootstrapProgressed(s, query, ok, last), dialable);
    } else {
      SameLedger(s, s, dialable);
    }
  }

  lemma StartBootstrapTraced(s: State, id: nat, started: bool, dialable: set<Peer>)
    ensures Traced(s, StartBootstrap(s, id, started), Quiet(dialable))
  {
    if started {
      SameLedger(s, StartBootstrap(s, id, true), dialable);
    } else {
      SameLedger(s, StartBootstrap(s, id, false), dialable);
    }
  }

  lemma OtherStepTraced(s: State, cfg: Config, step: Step, dialable: set<Peer>)
    requires Enabled(s, cfg, step)
    requires step.DoWalk? || step.DoFindProviders? || step.DoTopicLookup? || step.OnAddresses? || step.OnInternalQuery?
    ensures Traced(s, Next(s, cfg, step), Quiet(dialable))
  {
    SameLedger(s, Next(s, cfg, step), dialable);
  }

  /** Whatever the step, histories change by what the step says, and by nothing else. */
  lemma StepTraced(s: State, cfg: Config, step: Step)
    requires Enabled(s, cfg, step)
    ensures Traced(s, Next(s, cfg, step), TraceOf(cfg, s, step, Next(s, cfg, step).book))
  {
    hide Traced;
    var dialable := ConnectedIn(step) + Next(s, cfg, step).book.addresses.Keys;
    match step
    case DoCall(_, _, _, _, _, _, _) => StartTraced(s, cfg, step);
    case DoBootstrap(id, started) => StartBootstrapTraced(s, id, started, dialable);
    case OnTick(_, order) => ExpireTraced(s, order, dialable);
    case OnProviders(_, _, _, _) => ProvidersTraced(s, cfg, step);
    case OnClosest(query, found, connected) => ClosestFoundTraced(s, cfg, query, found, connected);
    case OnBootstrap(query, ok, last) => BootstrapTraced(s, query, ok, last, dialable);
    case OnFailure(peer, request, error, now, connected) => FailureTraced(s, peer, request, error, now, connected);
    case OnReply(_, _, _, _, _, _) => ReplyTraced(s, cfg, step);
    case _ => OtherStepTraced(s, cfg, step, dialable);
  }
}
