/**
  * The part of the node that makes calls and searches: what each command and each swarm event
  * does to its tables, as functions on a value. The class in Node.dfy is proved against these.
  *
  * Besides the source's tables a state carries what only the proofs look at: everything handed to
  * the swarm (`sent`, `queries`), every event emitted (`log`), and a history per call and search.
  */
module NodeSpec {
  import opened Types
  import opened Multiaddrs
  import opened AddressBooks
  import opened Calls
  import Delegations
  import Wire

  /** How many failed peers, and how many groups, are remembered at most. */
  const MAX_REMEMBERED: nat := 4096

  datatype Config = Config(localPeer: Peer, delegation: Bytes, rpcProtocols: seq<Bytes>, prims: Primitives)

  datatype Event =
    | RpcResponse(id: nat, group: Key, node: Key, protocol: nat, data: Bytes)
    | RpcFailed(id: nat, group: Key, protocol: nat, reason: nat)
    | Discovered(id: nat, node: Key, addresses: seq<Multiaddr>)
    | DhtResult(id: nat, reason: nat)  // carries the LAST flag

  /** A request handed to the swarm; its id is its place in the sequence of all of them. */
  datatype Sent = Sent(call: nat, peer: Peer, frame: Bytes)

  /** A DHT query; its id is its place in the sequence of all of them. */
  datatype Query =
    | ProvidersForCall(key: Key)
    | ProvidersForSearch(key: Key)
    | ProvidersForTopic(key: Key)
    | ClosestTo(call: nat, peer: Peer)
    | ClosestToRandom
    | Bootstrap
    | Internal  // started by the swarm itself

  datatype Outcome =
    | Pending
    | Answered(peer: Peer, frame: Bytes, nowMs: nat)
    | Exhausted(reason: nat)
    | TimedOut

  datatype History = History(
    group: Key,
    protocol: nat,
    frame: Bytes,
    pinned: Option<Key>,
    reported: set<Peer>,   // the pinned peer, or every provider reported while the call was live
    asked: seq<Peer>,
    looked: seq<Peer>,     // peers whose addresses were looked up
    dropped: seq<Peer>,    // peers given up without being asked
    completions: nat,      // failed requests, replies and finished address lookups
    outcome: Outcome)

  datatype Search = Search(query: nat, found: seq<Event>, result: Option<nat>)

  datatype State = State(
    calls: map<nat, Call>,
    outbound: map<nat, nat>,          // request -> call
    providerLookups: map<nat, nat>,   // query -> call
    resolutions: map<nat, nat>,       // query -> call
    failed: map<Peer, Time>,
    lastSuccess: map<Key, Peer>,
    bootstraps: map<nat, nat>,        // query -> search
    walks: map<nat, nat>,
    providerQueries: map<nat, nat>,
    topicLookups: map<nat, Key>,
    book: Book,
    sent: seq<Sent>,
    queries: seq<Query>,
    log: seq<Event>,
    ledger: map<nat, History>,
    searches: map<nat, Search>,
    requestOf: map<nat, nat>,         // live call -> what it waits for
    resolutionOf: map<nat, nat>,
    lookupOf: map<nat, nat>)

  const INITIAL := State(
    map[], map[], map[], map[], map[], map[], map[], map[], map[], map[], EMPTY,
    [], [], [], map[], map[], map[], map[], map[])

  const NO_HISTORY := History(ZERO_KEY, 0, [], None, {}, [], [], [], 0, Pending)

  function Past(ledger: map<nat, History>, id: nat): History {
    if id in ledger then ledger[id] else NO_HISTORY
  }

  function SearchOf(searches: map<nat, Search>, id: nat): Search {
    if id in searches then searches[id] else Search(0, [], None)
  }

  /** The key the events name a peer by; zero for a peer id that is not an ed25519 key. */
  function PeerKey(cfg: Config, peer: Peer): Key {
    match cfg.prims.keyOf(peer)
    case Some(k) => k
    case None => ZERO_KEY
  }

  // -------- who is tried next

  datatype Choice = Ask(peer: Peer) | Resolve(peer: Peer) | Nobody

  datatype Pick = Pick(dropped: seq<Peer>, rest: seq<Peer>, choice: Choice)

  /**
    * The first candidate that can be asked or whose addresses were not looked up yet; those
    * before it are undialable even after a lookup, and dropped. A peer that is looked up stays first.
    */
  function Choose(candidates: seq<Peer>, resolved: set<Peer>, dialable: set<Peer>): Pick {
    if candidates == [] then Pick([], [], Nobody)
    else
      var peer, rest := candidates[0], candidates[1..];
      if peer in dialable then Pick([], rest, Ask(peer))
      else if peer !in resolved then Pick([], candidates, Resolve(peer))
      else
        var later := Choose(rest, resolved, dialable);
        later.(dropped := [peer] + later.dropped)
  }

  function CallAfter(c: Call, pick: Pick): Call {
    match pick.choice
    case Ask(_) => c.(candidates := pick.rest, inFlight := true)
    case Resolve(p) => c.(candidates := pick.rest, resolved := c.resolved + {p}, resolving := true)
    case Nobody => c.(candidates := pick.rest)
  }

  function HistoryAfter(h: History, pick: Pick): History {
    var r := h.(dropped := h.dropped + pick.dropped);
    match pick.choice
    case Ask(p) => r.(asked := r.asked + [p])
    case Resolve(p) => r.(looked := r.looked + [p])
    case Nobody => r
  }

  function Act(s: State, id: nat, c: Call, pick: Pick): State {
    var c' := CallAfter(c, pick);
    var h' := HistoryAfter(Past(s.ledger, id), pick);
    match pick.choice
    case Ask(p) =>
      s.(calls := s.calls[id := c'],
         ledger := s.ledger[id := h'],
         outbound := s.outbound[|s.sent| := id],
         requestOf := s.requestOf[id := |s.sent|],
         sent := s.sent + [Sent(id, p, c.frame)])
    case Resolve(p) =>
      s.(calls := s.calls[id := c'],
         ledger := s.ledger[id := h'],
         resolutions := s.resolutions[|s.queries| := id],
         resolutionOf := s.resolutionOf[id := |s.queries|],
         queries := s.queries + [ClosestTo(id, p)])
    case Nobody =>
      if c.lookupRunning then s.(calls := s.calls[id := c'], ledger := s.ledger[id := h'])
      else End(s.(ledger := s.ledger[id := h']), id, Exhausted(c.lastFailure),
               RpcFailed(id, c.group, c.protocol, c.lastFailure))
  }

  /** What a try never touches. */
  ghost predicate LeftAlone(s: State, s': State) {
    && s'.providerLookups == s.providerLookups && s'.searches == s.searches
    && s'.failed == s.failed && s'.lastSuccess == s.lastSuccess && s'.book == s.book
  }

  /** A try that goes on changes the call and its history, and says nothing. */
  ghost predicate GoesOn(s: State, s': State, id: nat, c: Call, h: History) {
    && s'.calls == s.calls[id := c] && s'.ledger == s.ledger[id := h] && s'.log == s.log
    && LeftAlone(s, s')
  }

  lemma AskShape(s: State, id: nat, c: Call, pick: Pick)
    requires pick.choice.Ask?
    ensures GoesOn(s, Act(s, id, c, pick), id, CallAfter(c, pick), HistoryAfter(Past(s.ledger, id), pick))
  {
  }

  lemma ResolveShape(s: State, id: nat, c: Call, pick: Pick)
    requires pick.choice.Resolve?
    ensures GoesOn(s, Act(s, id, c, pick), id, CallAfter(c, pick), HistoryAfter(Past(s.ledger, id), pick))
  {
  }

  lemma IdleShape(s: State, id: nat, c: Call, pick: Pick)
    requires pick.choice.Nobody? && c.lookupRunning
    ensures GoesOn(s, Act(s, id, c, pick), id, CallAfter(c, pick), HistoryAfter(Past(s.ledger, id), pick))
  {
  }

  lemma TryShape(s: State, id: nat, c: Call, pick: Pick)
    requires pick.choice.Nobody? ==> c.lookupRunning
    ensures GoesOn(s, Act(s, id, c, pick), id, CallAfter(c, pick), HistoryAfter(Past(s.ledger, id), pick))
  {
    match pick.choice
    case Ask(_) => AskShape(s, id, c, pick);
    case Resolve(_) => ResolveShape(s, id, c, pick);
    case Nobody => IdleShape(s, id, c, pick);
  }

  /** Without a candidate and without a lookup the call is over. */
  lemma GiveUpShape(s: State, id: nat, c: Call, pick: Pick)
    requires pick.choice.Nobody? && !c.lookupRunning
    ensures Act(s, id, c, pick).calls == s.calls - {id}
    ensures Act(s, id, c, pick).ledger
            == s.ledger[id := HistoryAfter(Past(s.ledger, id), pick).(outcome := Exhausted(c.lastFailure))]
    ensures Act(s, id, c, pick).log == s.log + [RpcFailed(id, c.group, c.protocol, c.lastFailure)]
    ensures LeftAlone(s, Act(s, id, c, pick))
  {
  }

  lemma ActLeaves(s: State, id: nat, c: Call, pick: Pick)
    ensures LeftAlone(s, Act(s, id, c, pick))
  {
    if pick.choice.Nobody? && !c.lookupRunning {
      GiveUpShape(s, id, c, pick);
    } else {
      TryShape(s, id, c, pick);
    }
  }

  /** The call leaves the table, and says why. */
  function End(s: State, id: nat, outcome: Outcome, event: Event): State {
    s.(calls := s.calls - {id},
       ledger := s.ledger[id := Past(s.ledger, id).(outcome := outcome)],
       requestOf := s.requestOf - {id},
       resolutionOf := s.resolutionOf - {id},
       lookupOf := s.lookupOf - {id},
       log := s.log + [event])
  }

  function Advance(s: State, id: nat, connected: set<Peer>): State {
    if id !in s.calls || s.calls[id].inFlight || s.calls[id].resolving then s
    else
      var c := s.calls[id];
      Act(s, id, c, Choose(c.candidates, c.resolved, connected + s.book.addresses.Keys))
  }

  // -------- commands

  function StartCall(s: State, cfg: Config, id: nat, group: Key, node: Option<Key>, protocol: nat,
                     payload: Bytes, deadline: Time, connected: set<Peer>): State
    requires protocol < |cfg.rpcProtocols|
  {
    Advance(Looking(s, cfg, id, group, node, protocol, payload, deadline), id, connected)
  }

  /** The new call in its table: with the pinned peer queued, or with a lookup of providers running. */
  function Looking(s: State, cfg: Config, id: nat, group: Key, node: Option<Key>, protocol: nat,
                   payload: Bytes, deadline: Time): State
    requires protocol < |cfg.rpcProtocols|
  {
    var frame := Wire.EncodeRequest(cfg.delegation, cfg.rpcProtocols[protocol], payload);
    var target := if node.Some? then cfg.prims.peerOf(node.value) else None;
    var peers := if target.Some? then [target.value] else [];
    var call := Call(group, protocol, frame, peers, Elements(peers), {}, false, false, node.None?, deadline,
                     FAIL_UNREACHABLE);
    var history := NO_HISTORY.(group := group, protocol := protocol, frame := frame, pinned := node,
                               reported := Elements(peers));
    var started := s.(calls := s.calls[id := call], ledger := s.ledger[id := history]);
    if node.Some? then started
    else started.(providerLookups := s.providerLookups[|s.queries| := id],
                  lookupOf := s.lookupOf[id := |s.queries|],
                  queries := s.queries + [ProvidersForCall(group)])
  }

  /** A search the caller started: its query is in the table until its last result. */
  function StartSearch(s: State, id: nat, query: Query): State {
    s.(queries := s.queries + [query], searches := s.searches[id := Search(|s.queries|, [], None)])
  }

  function StartBootstrap(s: State, id: nat, started: bool): State {
    if started then
      StartSearch(s, id, Bootstrap).(bootstraps := s.bootstraps[|s.queries| := id])
    else
      s.(searches := s.searches[id := Search(|s.queries|, [], Some(FAIL_UNREACHABLE))],
         log := s.log + [DhtResult(id, FAIL_UNREACHABLE)])
  }

  function StartWalk(s: State, id: nat): State {
    StartSearch(s, id, ClosestToRandom).(walks := s.walks[|s.queries| := id])
  }

  function FindProviders(s: State, id: nat, key: Key): State {
    StartSearch(s, id, ProvidersForSearch(key)).(providerQueries := s.providerQueries[|s.queries| := id])
  }

  function LookUpTopic(s: State, key: Key): State {
    s.(topicLookups := s.topicLookups[|s.queries| := key], queries := s.queries + [ProvidersForTopic(key)])
  }

  // -------- the clock

  function ExpireOne(s: State, id: nat): State {
    if id !in s.calls then s
    else End(s, id, TimedOut, RpcFailed(id, s.calls[id].group, s.calls[id].protocol, FAIL_TIMEOUT))
  }

  function Expire(s: State, order: seq<nat>): State {
    if order == [] then s else ExpireOne(Expire(s, order[..|order| - 1]), order[|order| - 1])
  }

  /** The calls whose time is over, in any order. */
  ghost predicate ListsExpired(s: State, now: Time, order: seq<nat>) {
    Distinct(order) && forall id :: id in order <==> id in s.calls && s.calls[id].deadline <= now
  }

  // -------- DHT results

  /** A provider, with the clock as it read when the provider was queued. */
  datatype Report = Report(peer: Peer, at: Time)

  datatype Found = Found(peer: Peer, addresses: seq<Multiaddr>)

  function QueueReports(c: Call, reports: seq<Report>, local: Peer, lastSuccess: map<Key, Peer>,
                        failed: map<Peer, Time>): Call {
    if reports == [] then c
    else
      var before, last := QueueReports(c, reports[..|reports| - 1], local, lastSuccess, failed), reports[|reports| - 1];
      if last.peer == local then before else Enqueue(before, last.peer, lastSuccess, failed, last.at)
  }

  function Reported(reports: seq<Report>, local: Peer): set<Peer> {
    set r | r in reports && r.peer != local :: r.peer
  }

  function ProviderEvents(cfg: Config, book: Book, id: nat, reports: seq<Report>): seq<Event> {
    seq(|reports|, i requires 0 <= i < |reports| =>
      Discovered(id, PeerKey(cfg, reports[i].peer), Addresses(book, reports[i].peer)))
  }

  function FoundEvents(cfg: Config, id: nat, found: seq<Found>): seq<Event> {
    seq(|found|, i requires 0 <= i < |found| => Discovered(id, PeerKey(cfg, found[i].peer), found[i].addresses))
  }

  function Emit(s: State, id: nat, events: seq<Event>): State {
    var search := SearchOf(s.searches, id);
    s.(log := s.log + events, searches := s.searches[id := search.(found := search.found + events)])
  }

  function Finish(s: State, id: nat, reason: nat): State {
    s.(log := s.log + [DhtResult(id, reason)],
       searches := s.searches[id := SearchOf(s.searches, id).(result := Some(reason))])
  }

  /** `reports` is empty for a result that carries no providers. */
  function ProvidersFound(s: State, cfg: Config, query: nat, reports: seq<Report>, last: bool,
                          connected: set<Peer>): State {
    if query in s.topicLookups then
      if last then s.(topicLookups := s.topicLookups - {query}) else s
    else if query in s.providerQueries then
      var id := s.providerQueries[query];
      var shown := Emit(s, id, ProviderEvents(cfg, s.book, id, reports));
      if last then Finish(shown.(providerQueries := s.providerQueries - {query}), id, 0) else shown
    else if query !in s.providerLookups then s
    else
      var id := s.providerLookups[query];
      var queued := if id in s.calls then Hear(s, cfg, id, reports) else s;
      Advance(if last then LookupEnds(queued, query, id) else queued, id, connected)
  }

  function Hear(s: State, cfg: Config, id: nat, reports: seq<Report>): State
    requires id in s.calls
  {
    var h := Past(s.ledger, id);
    s.(calls := s.calls[id := QueueReports(s.calls[id], reports, cfg.localPeer, s.lastSuccess, s.failed)],
       ledger := s.ledger[id := h.(reported := h.reported + Reported(reports, cfg.localPeer))])
  }

  function LookupEnds(s: State, query: nat, id: nat): State {
    s.(calls := if id in s.calls then s.calls[id := s.calls[id].(lookupRunning := false)] else s.calls,
       providerLookups := s.providerLookups - {query},
       lookupOf := s.lookupOf - {id})
  }

  function Learn(b: Book, peer: Peer, addresses: seq<Multiaddr>): Book {
    if addresses == [] then b
    else AddTo(Learn(b, peer, addresses[..|addresses| - 1]), peer, addresses[|addresses| - 1])
  }

  function LearnAll(b: Book, found: seq<Found>): Book {
    if found == [] then b
    else
      var last := found[|found| - 1];
      Learn(LearnAll(b, found[..|found| - 1]), last.peer, last.addresses)
  }

  function ClosestFound(s: State, cfg: Config, query: nat, found: seq<Found>, connected: set<Peer>): State {
    var walk := if query in s.walks then s.walks[query] else 0;
    Closest(s.(book := LearnAll(s.book, found)), query, FoundEvents(cfg, walk, found), connected)
  }

  function Closest(s: State, query: nat, events: seq<Event>, connected: set<Peer>): State {
    if query in s.resolutions then
      Advance(ResolutionEnds(s, query), s.resolutions[query], connected)
    else if query in s.walks then
      var id := s.walks[query];
      Finish(Emit(s.(walks := s.walks - {query}), id, events), id, 0)
    else s
  }

  function ResolutionEnds(s: State, query: nat): State
    requires query in s.resolutions
  {
    var id := s.resolutions[query];
    var s' := s.(resolutions := s.resolutions - {query}, resolutionOf := s.resolutionOf - {id});
    if id in s.calls then Complete(s', id, s.calls[id].(resolving := false)) else s'
  }

  /** The call `id` is now `c`: one request or lookup made for it is done. */
  function Complete(s: State, id: nat, c: Call): State {
    s.(calls := s.calls[id := c], ledger := OneMore(s.ledger, id))
  }

  function OneMore(ledger: map<nat, History>, id: nat): map<nat, History> {
    ledger[id := Past(ledger, id).(completions := Past(ledger, id).completions + 1)]
  }

  function BootstrapProgressed(s: State, query: nat, ok: bool, last: bool): State {
    if last && query in s.bootstraps then
      Finish(s.(bootstraps := s.bootstraps - {query}), s.bootstraps[query], if ok then 0 else FAIL_TIMEOUT)
    else s
  }

  // -------- replies

  datatype SendError = TimeoutError | UnsupportedProtocols | OtherError

  function FailureOf(e: SendError): nat {
    match e
    case TimeoutError => FAIL_TIMEOUT
    case UnsupportedProtocols => FAIL_REFUSED
    case OtherError => FAIL_UNREACHABLE
  }

  /** The failures whose penalty is not over. */
  function StillPenalized(failed: map<Peer, Time>, now: Time): map<Peer, Time> {
    map p | p in failed && Since(now, failed[p]) < FAILURE_PENALTY :: failed[p]
  }

  function RememberFailure(failed: map<Peer, Time>, peer: Peer, now: Time): map<Peer, Time> {
    var recent := if |failed| >= MAX_REMEMBERED then StillPenalized(failed, now) else failed;
    var room := if |recent| >= MAX_REMEMBERED then map[] else recent;
    room[peer := now]
  }

  function RememberSuccess(lastSuccess: map<Key, Peer>, group: Key, peer: Peer): map<Key, Peer> {
    var room := if |lastSuccess| >= MAX_REMEMBERED then map[] else lastSuccess;
    room[group := peer]
  }

  datatype Answer = Answer(node: Key, payload: Bytes)

  /** What makes a reply count: a frame whose delegation binds the peer's key to the called group. */
  function Accept(prims: Primitives, peer: Peer, group: Key, frame: Bytes, nowMs: nat): Option<Answer> {
    match Wire.DecodeResponse(frame)
    case None => None
    case Some(response) =>
      match prims.keyOf(peer)
      case None => None
      case Some(node) =>
        match Delegations.Parse(response.delegation)
        case Err(_) => None
        case Ok(d) =>
          if Delegations.VerifyFor(prims, d, node, nowMs).Valid? && d.group == group
          then Some(Answer(node, response.payload)) else None
  }

  function RequestFailed(s: State, peer: Peer, request: nat, error: SendError, now: Time, connected: set<Peer>): State {
    var s' := s.(failed := RememberFailure(s.failed, peer, now));
    if request !in s.outbound then s'
    else
      Advance(RequestEnds(s', request, FailureOf(error)), s.outbound[request], connected)
  }

  function RequestEnds(s: State, request: nat, failure: nat): State
    requires request in s.outbound
  {
    var id := s.outbound[request];
    var s' := s.(outbound := s.outbound - {request}, requestOf := s.requestOf - {id});
    if id in s.calls then Complete(s', id, s.calls[id].(inFlight := false, lastFailure := failure)) else s'
  }

  function Replied(s: State, cfg: Config, peer: Peer, request: nat, frame: Bytes, nowMs: nat, now: Time,
                   connected: set<Peer>): State {
    if request !in s.outbound then s
    else
      var id, done := s.outbound[request], RequestEnds(s, request, FAIL_REFUSED);
      if id !in s.calls then done
      else
        match Accept(cfg.prims, peer, s.calls[id].group, frame, nowMs)
        case Some(answer) => Answers(done, id, peer, frame, nowMs, answer)
        case None => Advance(done.(failed := RememberFailure(s.failed, peer, now)), id, connected)
  }

  function Answers(s: State, id: nat, peer: Peer, frame: Bytes, nowMs: nat, answer: Answer): State
    requires id in s.calls
  {
    var c := s.calls[id];
    End(s.(failed := s.failed - {peer}, lastSuccess := RememberSuccess(s.lastSuccess, c.group, peer)),
        id, Answered(peer, frame, nowMs),
        RpcResponse(id, c.group, answer.node, c.protocol, answer.payload))
  }

  // -------- steps and runs

  datatype Step =
    | DoCall(id: nat, group: Key, node: Option<Key>, protocol: nat, payload: Bytes, deadline: Time,
             connected: set<Peer>)
    | DoBootstrap(id: nat, started: bool)
    | DoWalk(id: nat)
    | DoFindProviders(id: nat, key: Key)
    | DoTopicLookup(key: Key)
    | OnTick(now: Time, order: seq<nat>)
    | OnAddresses(peer: Peer, addresses: seq<Multiaddr>)
    | OnProviders(query: nat, reports: seq<Report>, last: bool, connected: set<Peer>)
    | OnClosest(query: nat, found: seq<Found>, connected: set<Peer>)
    | OnBootstrap(query: nat, ok: bool, last: bool)
    | OnInternalQuery
    | OnFailure(peer: Peer, request: nat, error: SendError, now: Time, connected: set<Peer>)
    | OnReply(peer: Peer, request: nat, frame: Bytes, nowMs: nat, now: Time, connected: set<Peer>)

  /**
    * What the rest of the program guarantees: ids the caller gets are new and protocols
    * registered; a tick lists the calls that are over; a reply comes from the peer that was asked.
    */
  ghost predicate Enabled(s: State, cfg: Config, step: Step) {
    match step
    case DoCall(id, _, _, protocol, _, _, _) => Unused(s, id) && protocol < |cfg.rpcProtocols|
    case DoBootstrap(id, _) => Unused(s, id)
    case DoWalk(id) => Unused(s, id)
    case DoFindProviders(id, _) => Unused(s, id)
    case OnTick(now, order) => ListsExpired(s, now, order)
    case OnReply(peer, request, _, _, _, _) => request < |s.sent| ==> s.sent[request].peer == peer
    case _ => true
  }

  ghost predicate Unused(s: State, id: nat) {
    id !in s.ledger && id !in s.searches
  }

  ghost function Next(s: State, cfg: Config, step: Step): State
    requires Enabled(s, cfg, step)
  {
    match step
    case DoCall(id, group, node, protocol, payload, deadline, connected) =>
      StartCall(s, cfg, id, group, node, protocol, payload, deadline, connected)
    case DoBootstrap(id, started) => StartBootstrap(s, id, started)
    case DoWalk(id) => StartWalk(s, id)
    case DoFindProviders(id, key) => FindProviders(s, id, key)
    case DoTopicLookup(key) => LookUpTopic(s, key)
    case OnTick(now, order) => Expire(s, order)
    case OnAddresses(peer, addresses) => s.(book := Learn(s.book, peer, addresses))
    case OnProviders(query, reports, last, connected) => ProvidersFound(s, cfg, query, reports, last, connected)
    case OnClosest(query, found, connected) => ClosestFound(s, cfg, query, found, connected)
    case OnBootstrap(query, ok, last) => BootstrapProgressed(s, query, ok, last)
    case OnInternalQuery => s.(queries := s.queries + [Internal])
    case OnFailure(peer, request, error, now, connected) => RequestFailed(s, peer, request, error, now, connected)
    case OnReply(peer, request, frame, nowMs, now, connected) =>
      Replied(s, cfg, peer, request, frame, nowMs, now, connected)
  }

  /** The steps can be taken one after the other from `s`. */
  ghost predicate IsRun(s: State, cfg: Config, steps: seq<Step>)
    decreases |steps|
  {
    steps == [] || (Enabled(s, cfg, steps[0]) && IsRun(Next(s, cfg, steps[0]), cfg, steps[1..]))
  }

  ghost function After(s: State, cfg: Config, steps: seq<Step>): State
    requires IsRun(s, cfg, steps)
    decreases |steps|
  {
    if steps == [] then s else After(Next(s, cfg, steps[0]), cfg, steps[1..])
  }
}
