/** What holds in every state the node can reach, in the caller's terms. */
module NodeTheorems {
  import opened Types
  import opened AddressBooks
  import opened Calls
  import opened NodeSpec
  import opened CallAccount
  import opened CallTables
  import opened CallEntries
  import opened CallBooks
  import opened CallRights
  import opened NodeLog
  import opened NodeSends
  import opened NodeQueries
  import opened NodeInvariant
  import opened NodeSteps
  import opened NodeProgress
  import opened NodeGrowth
  import opened NodeTraces
  import opened Multiaddrs
  import Delegations
  import Wire

  /** Some run from the start ends in `s`. */
  ghost predicate Reachable(cfg: Config, s: State) {
    exists steps :: IsRun(INITIAL, cfg, steps) && After(INITIAL, cfg, steps) == s
  }

  lemma ReachableInv(cfg: Config, s: State)
    requires Reachable(cfg, s)
    ensures Inv(cfg, s)
  {
    var steps :| IsRun(INITIAL, cfg, steps) && After(INITIAL, cfg, steps) == s;
    InitialInv(cfg);
    RunKeepsInv(INITIAL, cfg, steps);
  }

  // -------- the steps of a run

  /** The `i`th step of the run is taken in the state `m`. */
  ghost predicate At(cfg: Config, steps: seq<Step>, i: nat, m: State) {
    && i < |steps| && IsRun(INITIAL, cfg, steps[..i]) && After(INITIAL, cfg, steps[..i]) == m
    && Enabled(m, cfg, steps[i])
  }

  lemma {:induction false} RunSplit(s: State, cfg: Config, steps: seq<Step>)
    requires IsRun(s, cfg, steps) && steps != []
    ensures var before, last := steps[..|steps| - 1], steps[|steps| - 1];
            && IsRun(s, cfg, before) && Enabled(After(s, cfg, before), cfg, last)
            && After(s, cfg, steps) == Next(After(s, cfg, before), cfg, last)
    decreases |steps|
  {
    hide Next, Enabled;
    if |steps| == 1 {
      assert steps[1..] == [] && steps[..0] == [];
    } else {
      var rest := steps[1..];
      RunSplit(Next(s, cfg, steps[0]), cfg, rest);
      assert steps[..|steps| - 1][1..] == rest[..|rest| - 1] && rest[|rest| - 1] == steps[|steps| - 1];
    }
  }

  /** The last step of a run, and the state it is taken in. */
  lemma LastStep(cfg: Config, steps: seq<Step>) returns (m: State)
    requires IsRun(INITIAL, cfg, steps) && steps != []
    ensures At(cfg, steps, |steps| - 1, m) && IsRun(INITIAL, cfg, steps[..|steps| - 1])
    ensures m == After(INITIAL, cfg, steps[..|steps| - 1])
    ensures After(INITIAL, cfg, steps) == Next(m, cfg, steps[|steps| - 1])
  {
    RunSplit(INITIAL, cfg, steps);
    m := After(INITIAL, cfg, steps[..|steps| - 1]);
  }

  lemma AtInLongerRun(cfg: Config, steps: seq<Step>, i: nat, m: State)
    requires steps != [] && At(cfg, steps[..|steps| - 1], i, m)
    ensures At(cfg, steps, i, m) && steps[..|steps| - 1][i] == steps[i]
  {
    assert steps[..|steps| - 1][..i] == steps[..i];
  }

  lemma RunReaches(cfg: Config, steps: seq<Step>)
    requires IsRun(INITIAL, cfg, steps)
    ensures Reachable(cfg, After(INITIAL, cfg, steps)) && Inv(cfg, After(INITIAL, cfg, steps))
  {
    ReachableInv(cfg, After(INITIAL, cfg, steps));
  }

  // -------- what a live call waits for

  /** The entries of a table that name the call. */
  function EntriesFor(table: map<nat, nat>, id: nat): set<nat> {
    set k | k in table && table[k] == id
  }

  predicate InFlight(s: State, id: nat)
    requires id in s.calls
  {
    && s.calls[id].inFlight && !s.calls[id].resolving
    && |EntriesFor(s.outbound, id)| == 1 && EntriesFor(s.resolutions, id) == {}
  }

  predicate Resolving(s: State, id: nat)
    requires id in s.calls
  {
    && s.calls[id].resolving && !s.calls[id].inFlight
    && |EntriesFor(s.resolutions, id)| == 1 && EntriesFor(s.outbound, id) == {}
  }

  predicate Idle(s: State, id: nat)
    requires id in s.calls
  {
    && !s.calls[id].inFlight && !s.calls[id].resolving
    && s.calls[id].candidates == [] && s.calls[id].lookupRunning
    && EntriesFor(s.outbound, id) == {} && EntriesFor(s.resolutions, id) == {}
  }

  lemma OneEntry(table: map<nat, nat>, waits: map<nat, nat>, live: set<nat>, id: nat)
    requires Mirrors(table, waits, live) && id in live
    ensures EntriesFor(table, id) == if id in waits then {waits[id]} else {}
  {
    forall k | k in EntriesFor(table, id)
      ensures id in waits && k == waits[id]
    {
      assert table[k] in live;
      assert k in table && table[k] == id;
    }
    if id in waits {
      assert waits[id] in table;
      assert table[waits[id]] == id;
    }
  }

  /** What the tables and flags say of a live call, one table at a time. */
  lemma EntriesOfLiveCall(s: State, id: nat)
    requires TablesAgree(s) && id in s.calls
    ensures EntriesFor(s.outbound, id) == if s.calls[id].inFlight then {s.requestOf[id]} else {}
    ensures EntriesFor(s.resolutions, id) == if s.calls[id].resolving then {s.resolutionOf[id]} else {}
    ensures EntriesFor(s.providerLookups, id) == if s.calls[id].lookupRunning then {s.lookupOf[id]} else {}
  {
    OneEntry(s.outbound, s.requestOf, s.calls.Keys, id);
    OneEntry(s.resolutions, s.resolutionOf, s.calls.Keys, id);
    OneEntry(s.providerLookups, s.lookupOf, s.calls.Keys, id);
  }

  /** Every live call waits for exactly one thing, with one entry for it; none waits for nothing. */
  lemma LiveCallWaitsForOneThing(cfg: Config, s: State, id: nat)
    requires Reachable(cfg, s) && id in s.calls
    ensures InFlight(s, id) || Resolving(s, id) || Idle(s, id)
    ensures |EntriesFor(s.providerLookups, id)| == if s.calls[id].lookupRunning then 1 else 0
  {
    ReachableInv(cfg, s);
    WaitsForOneThing(s, id);
  }

  lemma WaitsForOneThing(s: State, id: nat)
    requires TablesAgree(s) && id in s.calls && Waits(s.calls[id])
    ensures InFlight(s, id) || Resolving(s, id) || Idle(s, id)
    ensures |EntriesFor(s.providerLookups, id)| == if s.calls[id].lookupRunning then 1 else 0
  {
    EntriesOfLiveCall(s, id);
  }

  /** The call that an entry names was started, and is live or has its outcome. */
  ghost predicate Names(s: State, id: nat) {
    id in s.ledger && (id in s.calls <==> s.ledger[id].outcome.Pending?)
  }

  /** An entry of a table names a live call that waits for it, or one that is over. */
  lemma RequestsAreLiveOrStale(cfg: Config, s: State, k: nat)
    requires Reachable(cfg, s) && k in s.outbound
    ensures Names(s, s.outbound[k])
    ensures s.outbound[k] in s.calls ==> s.calls[s.outbound[k]].inFlight && EntriesFor(s.outbound, s.outbound[k]) == {k}
  {
    ReachableInv(cfg, s);
    if s.outbound[k] in s.calls {
      OneEntry(s.outbound, s.requestOf, s.calls.Keys, s.outbound[k]);
      assert k in EntriesFor(s.outbound, s.outbound[k]);
    }
  }

  lemma ResolutionsAreLiveOrStale(cfg: Config, s: State, k: nat)
    requires Reachable(cfg, s) && k in s.resolutions
    ensures Names(s, s.resolutions[k])
    ensures s.resolutions[k] in s.calls ==>
              s.calls[s.resolutions[k]].resolving && EntriesFor(s.resolutions, s.resolutions[k]) == {k}
  {
    ReachableInv(cfg, s);
    if s.resolutions[k] in s.calls {
      OneEntry(s.resolutions, s.resolutionOf, s.calls.Keys, s.resolutions[k]);
      assert k in EntriesFor(s.resolutions, s.resolutions[k]);
    }
  }

  lemma LookupsAreLiveOrStale(cfg: Config, s: State, k: nat)
    requires Reachable(cfg, s) && k in s.providerLookups
    ensures Names(s, s.providerLookups[k])
    ensures s.providerLookups[k] in s.calls ==>
              s.calls[s.providerLookups[k]].lookupRunning && EntriesFor(s.providerLookups, s.providerLookups[k]) == {k}
  {
    ReachableInv(cfg, s);
    if s.providerLookups[k] in s.calls {
      OneEntry(s.providerLookups, s.lookupOf, s.calls.Keys, s.providerLookups[k]);
      assert k in EntriesFor(s.providerLookups, s.providerLookups[k]);
    }
  }

  // -------- who was asked

  /** The search for the next candidate takes the first that can be used, and drops just those before it. */
  lemma {:induction false} ChooseTakesTheFirst(candidates: seq<Peer>, resolved: set<Peer>, dialable: set<Peer>)
    ensures var pick := Choose(candidates, resolved, dialable);
            var k := |pick.dropped|;
            && k <= |candidates| && pick.dropped == candidates[..k]
            && (forall j :: 0 <= j < k ==> candidates[j] in resolved && candidates[j] !in dialable)
            && match pick.choice {
                 case Ask(p) =>
                   && k < |candidates| && p == candidates[k] && p in dialable
                   && pick.rest == candidates[k + 1..]
                 case Resolve(p) =>
                   && k < |candidates| && p == candidates[k] && p !in dialable && p !in resolved
                   && pick.rest == candidates[k..]
                 case Nobody => k == |candidates| && pick.rest == []
               }
  {
    if candidates != [] && candidates[0] !in dialable && candidates[0] in resolved {
      ChooseTakesTheFirst(candidates[1..], resolved, dialable);
      assert candidates == [candidates[0]] + candidates[1..];
    }
  }

  /** In this step the call gives the peer up: it is neither connected nor in the book, and was looked up before. */
  ghost predicate GivesUp(cfg: Config, m: State, step: Step, id: nat, p: Peer)
    requires Enabled(m, cfg, step)
  {
    var s' := Next(m, cfg, step);
    && p !in Past(m.ledger, id).dropped && p in Past(s'.ledger, id).dropped
    && p !in ConnectedIn(step) && !Knows(s'.book, p) && p in PeersLooked(s'.queries, id)
  }

  /** Whatever the step, a peer that a call newly gives up is undialable, and its addresses were looked up. */
  lemma GivenUpWhileUndialable(cfg: Config, s: State, step: Step, id: nat, p: Peer)
    requires Reachable(cfg, s) && Enabled(s, cfg, step)
    requires p in Past(Next(s, cfg, step).ledger, id).dropped && p !in Past(s.ledger, id).dropped
    ensures GivesUp(cfg, s, step, id, p)
  {
    hide Sound, Next, Enabled;
    var s' := Next(s, cfg, step);
    ReachableInv(cfg, s);
    StepKeepsInv(s, cfg, step);
    StepTraced(s, cfg, step);
    assert TracedOne(Past(s.ledger, id), Past(s'.ledger, id), id, TraceOf(cfg, s, step, s'.book));
    DroppedWereLooked(cfg, s', id, p);
  }

  lemma DroppedWereLooked(cfg: Config, s: State, id: nat, p: Peer)
    requires Sound(cfg, s) && p in Past(s.ledger, id).dropped
    ensures p in PeersLooked(s.queries, id)
  {
    if id in s.calls {
      assert Accounted(s.calls[id], Past(s.ledger, id));
      ResolvedWereLooked(s.calls[id], Past(s.ledger, id));
    } else {
      assert Closed(s.ledger[id]);
    }
  }

  lemma ResolvedWereLooked(c: Call, h: History)
    requires multiset(h.looked) == multiset(c.resolved)
    ensures forall p :: p in c.resolved <==> p in h.looked
  {
    forall p
      ensures p in c.resolved <==> p in h.looked
    {
      assert p in multiset(h.looked) <==> p in multiset(c.resolved);
    }
  }

  /** While a call is live its peers are the asked, the queued and the given-up ones, each in one place. */
  lemma SeenIsPartitioned(cfg: Config, s: State, id: nat)
    requires Reachable(cfg, s) && id in s.calls
    ensures id in s.ledger && s.calls[id].seen == s.ledger[id].reported
    ensures Partitioned(s.calls[id].seen, PeersAsked(s.sent, id), s.ledger[id].dropped, s.calls[id].candidates)
  {
    ReachableInv(cfg, s);
    assert Accounted(s.calls[id], Past(s.ledger, id));
  }

  /** A peer that was given up was given up in some step of the run. */
  lemma {:induction false} GivenUpAt(cfg: Config, steps: seq<Step>, id: nat, p: Peer) returns (i: nat, m: State)
    requires IsRun(INITIAL, cfg, steps) && p in Past(After(INITIAL, cfg, steps).ledger, id).dropped
    ensures At(cfg, steps, i, m) && GivesUp(cfg, m, steps[i], id, p)
    decreases |steps|
  {
    hide Next, Enabled, GivesUp;
    m := LastStep(cfg, steps);
    i := |steps| - 1;
    RunReaches(cfg, steps[..i]);
    if p in Past(m.ledger, id).dropped {
      i, m := GivenUpAt(cfg, steps[..i], id, p);
      AtInLongerRun(cfg, steps, i, m);
    } else {
      GivenUpWhileUndialable(cfg, m, steps[i], id, p);
    }
  }

  /**
    * A call that failed for want of peers has asked each peer reported to it once, or looked it up once and given
    * it up in some step of the run, when it was neither connected nor in the address book.
    */
  lemma ExhaustedTriedEveryone(cfg: Config, steps: seq<Step>, id: nat, p: Peer)
    requires IsRun(INITIAL, cfg, steps) && id in After(INITIAL, cfg, steps).ledger
    requires var h := After(INITIAL, cfg, steps).ledger[id]; h.outcome.Exhausted? && p in h.reported
    ensures var s := After(INITIAL, cfg, steps);
            && multiset(PeersAsked(s.sent, id))[p] + multiset(s.ledger[id].dropped)[p] == 1
            && (p !in PeersAsked(s.sent, id) ==>
                  && multiset(PeersLooked(s.queries, id))[p] == 1
                  && exists i: nat, m: State :: At(cfg, steps, i, m) && GivesUp(cfg, m, steps[i], id, p))
  {
    var s := After(INITIAL, cfg, steps);
    RunReaches(cfg, steps);
    ExhaustedBooks(cfg, s, id, p);
    if p !in PeersAsked(s.sent, id) {
      var i, m := GivenUpAt(cfg, steps, id, p);
    }
  }

  lemma ExhaustedBooks(cfg: Config, s: State, id: nat, p: Peer)
    requires Sound(cfg, s) && id in s.ledger && s.ledger[id].outcome.Exhausted? && p in s.ledger[id].reported
    ensures multiset(PeersAsked(s.sent, id))[p] + multiset(s.ledger[id].dropped)[p] == 1
    ensures p !in PeersAsked(s.sent, id) ==>
              p in s.ledger[id].dropped && multiset(PeersLooked(s.queries, id))[p] == 1
  {
    assert Closed(s.ledger[id]);
    EachInOnePlace(s.ledger[id], p);
  }

  lemma EachInOnePlace(h: History, p: Peer)
    requires Closed(h) && h.outcome.Exhausted? && p in h.reported
    ensures multiset(h.asked)[p] + multiset(h.dropped)[p] == 1
    ensures p !in h.asked ==> p in h.dropped && multiset(h.looked)[p] == 1
  {
    assert (multiset(h.asked) + multiset(h.dropped))[p] == multiset(h.reported)[p];
    assert p !in h.asked ==> multiset(h.asked)[p] == 0;
    assert p in h.dropped ==> p in multiset(h.looked) && multiset(h.looked)[p] <= multiset(h.reported)[p];
  }

  /** A call never asks or looks up a peer twice, so its work is bounded by the peers reported to it. */
  lemma WorkIsBounded(cfg: Config, s: State, id: nat)
    requires Reachable(cfg, s) && id in s.ledger
    ensures var n := |s.ledger[id].reported|;
            |PeersAsked(s.sent, id)| <= n && |PeersLooked(s.queries, id)| <= n && s.ledger[id].completions <= 2 * n
    ensures forall p :: p in PeersAsked(s.sent, id) || p in PeersLooked(s.queries, id) ==> p in s.ledger[id].reported
    ensures Distinct(PeersAsked(s.sent, id)) && Distinct(PeersLooked(s.queries, id))
  {
    ReachableInv(cfg, s);
    var h := s.ledger[id];
    HistoryWithinReports(s.calls, s.ledger, id);
    WithinASet(h.asked, h.reported);
    WithinASet(h.looked, h.reported);
  }

  lemma HistoryWithinReports(calls: map<nat, Call>, ledger: map<nat, History>, id: nat)
    requires BooksKept(calls, ledger) && id in ledger
    ensures multiset(ledger[id].asked) <= multiset(ledger[id].reported)
    ensures multiset(ledger[id].looked) <= multiset(ledger[id].reported)
    ensures ledger[id].completions <= 2 * |ledger[id].reported|
  {
    if id in calls {
      assert Accounted(calls[id], Past(ledger, id));
      SubsetsAsMultisets(calls[id].resolved, calls[id].seen);
    } else {
      assert Closed(ledger[id]);
    }
  }

  lemma {:induction false} WithinASet(s: seq<Peer>, all: set<Peer>)
    requires multiset(s) <= multiset(all)
    ensures Distinct(s) && |s| <= |all|
    ensures forall p :: p in s ==> p in all
  {
    if s != [] {
      var init, last := s[..|s| - 1], s[|s| - 1];
      assert s == init + [last];
      assert multiset(all)[last] == 1;
      assert multiset(init)[last] == 0;
      forall p
        ensures multiset(init)[p] <= multiset(all - {last})[p]
      {
        assert multiset(s)[p] <= multiset(all)[p];
      }
      WithinASet(init, all - {last});
    }
  }

  // -------- who was reported

  /** In one step the peers reported to a call grow by those the step reports for it. */
  lemma StepHears(cfg: Config, s: State, step: Step, id: nat)
    requires Enabled(s, cfg, step)
    ensures Past(Next(s, cfg, step).ledger, id).reported == Past(s.ledger, id).reported + HeardIn(cfg, s, step, id)
  {
    hide Next, Enabled;
    StepTraced(s, cfg, step);
    var s' := Next(s, cfg, step);
    assert TracedOne(Past(s.ledger, id), Past(s'.ledger, id), id, TraceOf(cfg, s, step, s'.book));
    assert id != HearerIn(s, step) ==> HeardIn(cfg, s, step, id) == {};
  }

  lemma {:induction false} HeardAt(cfg: Config, steps: seq<Step>, id: nat, p: Peer) returns (i: nat, m: State)
    requires IsRun(INITIAL, cfg, steps) && p in Past(After(INITIAL, cfg, steps).ledger, id).reported
    ensures At(cfg, steps, i, m) && p in HeardIn(cfg, m, steps[i], id)
    decreases |steps|
  {
    hide Next, Enabled, HeardIn;
    m := LastStep(cfg, steps);
    i := |steps| - 1;
    StepHears(cfg, m, steps[i], id);
    if p in Past(m.ledger, id).reported {
      i, m := HeardAt(cfg, steps[..i], id, p);
      AtInLongerRun(cfg, steps, i, m);
    }
  }

  lemma {:induction false} HeardStays(cfg: Config, steps: seq<Step>, id: nat, p: Peer, i: nat, m: State)
    requires IsRun(INITIAL, cfg, steps) && At(cfg, steps, i, m) && p in HeardIn(cfg, m, steps[i], id)
    ensures p in Past(After(INITIAL, cfg, steps).ledger, id).reported
    decreases |steps|
  {
    hide Next, Enabled, HeardIn;
    var last := LastStep(cfg, steps);
    StepHears(cfg, last, steps[|steps| - 1], id);
    if i < |steps| - 1 {
      var before := steps[..|steps| - 1];
      assert before[..i] == steps[..i] && before[i] == steps[i];
      HeardStays(cfg, before, id, p, i, m);
    }
  }

  /**
    * Over every run the peers reported to a call are exactly those some step reported for it: the pinned peer when
    * it started, and the providers other than the node itself in the results for its lookup while it was live.
    */
  lemma HeardIsReported(cfg: Config, steps: seq<Step>, id: nat, p: Peer)
    requires IsRun(INITIAL, cfg, steps)
    ensures p in Past(After(INITIAL, cfg, steps).ledger, id).reported <==>
              exists i: nat, m: State :: At(cfg, steps, i, m) && p in HeardIn(cfg, m, steps[i], id)
  {
    if p in Past(After(INITIAL, cfg, steps).ledger, id).reported {
      var i, m := HeardAt(cfg, steps, id, p);
    }
    if i: nat, m: State :| At(cfg, steps, i, m) && p in HeardIn(cfg, m, steps[i], id) {
      HeardStays(cfg, steps, id, p, i, m);
    }
  }

  ghost predicate LookupsForTheirGroup(s: State) {
    forall q :: q in s.providerLookups ==>
      && q < |s.queries| && s.providerLookups[q] in s.ledger
      && s.queries[q] == ProvidersForCall(s.ledger[s.providerLookups[q]].group)
  }

  /** The lookup `q` belongs to the call `id` and asks for the providers of its group. */
  ghost predicate AsksForGroup(s: State, q: nat, id: nat) {
    && q in s.providerLookups && s.providerLookups[q] == id && id in s.ledger
    && q < |s.queries| && s.queries[q] == ProvidersForCall(s.ledger[id].group)
  }

  lemma FirstTryLeavesLookup(cfg: Config, m: State, id: nat, connected: set<Peer>, q: nat)
    requires Sound(cfg, m) && q in m.providerLookups && AsksForGroup(m, q, id)
    ensures AsksForGroup(Advance(m, id, connected), q, id)
  {
    hide Advance, Sound;
    var s' := Advance(m, id, connected);
    AdvanceMoves(m, cfg, id, connected);
    AdvanceLengthens(m, id, connected);
    AdvanceLeavesLookups(m, id, connected);
    assert MovesOne(m.calls, m.ledger, s'.calls, s'.ledger, id);
  }

  /** The lookup a call starts with, if it does, asks for the providers of its group. */
  lemma NewLookup(cfg: Config, s: State, step: Step)
    requires Inv(cfg, s) && Enabled(s, cfg, step) && step.DoCall?
    ensures |s.queries| in Next(s, cfg, step).providerLookups ==>
              AsksForGroup(Next(s, cfg, step), |s.queries|, step.id)
  {
    hide Advance, Looking, Sound;
    var m := Looking(s, cfg, step.id, step.group, step.node, step.protocol, step.payload, step.deadline);
    LookingSound(s, cfg, step.id, step.group, step.node, step.protocol, step.payload, step.deadline);
    NextIdsUnused(cfg, s);
    LookingAsks(s, cfg, step);
    AdvanceLeavesLookups(m, step.id, step.connected);
    if |s.queries| in m.providerLookups {
      FirstTryLeavesLookup(cfg, m, step.id, step.connected, |s.queries|);
    }
  }

  lemma LookingAsks(s: State, cfg: Config, step: Step)
    requires step.DoCall? && step.protocol < |cfg.rpcProtocols| && |s.queries| !in s.providerLookups
    ensures var m := Looking(s, cfg, step.id, step.group, step.node, step.protocol, step.payload, step.deadline);
            && step.id in m.ledger && m.ledger[step.id].group == step.group
            && (|s.queries| in m.providerLookups ==>
                  && m.providerLookups[|s.queries|] == step.id
                  && m.queries == s.queries + [ProvidersForCall(step.group)])
  {
    if step.node.Some? {
      PinnedAsksNobody(s, cfg, step);
    } else {
      GroupAsks(s, cfg, step);
    }
  }

  lemma PinnedAsksNobody(s: State, cfg: Config, step: Step)
    requires step.DoCall? && step.protocol < |cfg.rpcProtocols| && step.node.Some?
    ensures var m := Looking(s, cfg, step.id, step.group, step.node, step.protocol, step.payload, step.deadline);
            && step.id in m.ledger && m.ledger[step.id].group == step.group
            && m.providerLookups == s.providerLookups
  {
  }

  lemma GroupAsks(s: State, cfg: Config, step: Step)
    requires step.DoCall? && step.protocol < |cfg.rpcProtocols| && step.node.None?
    ensures var m := Looking(s, cfg, step.id, step.group, step.node, step.protocol, step.payload, step.deadline);
            && step.id in m.ledger && m.ledger[step.id].group == step.group
            && m.providerLookups == s.providerLookups[|s.queries| := step.id]
            && m.queries == s.queries + [ProvidersForCall(step.group)]
  {
  }

  lemma AdvanceLeavesLookups(s: State, id: nat, connected: set<Peer>)
    ensures Advance(s, id, connected).providerLookups == s.providerLookups
  {
    if id in s.calls && !s.calls[id].inFlight && !s.calls[id].resolving {
      var c := s.calls[id];
      ActLeaves(s, id, c, Choose(c.candidates, c.resolved, connected + s.book.addresses.Keys));
    }
  }

  lemma StepKeepsLookups(cfg: Config, s: State, step: Step)
    requires Inv(cfg, s) && Enabled(s, cfg, step) && LookupsForTheirGroup(s)
    ensures LookupsForTheirGroup(Next(s, cfg, step))
  {
    hide Next, Sound, Enabled;
    var s' := Next(s, cfg, step);
    StepTraced(s, cfg, step);
    StepLengthens(s, cfg, step);
    StepMoves(s, cfg, step);
    if step.DoCall? {
      NewLookup(cfg, s, step);
    }
    forall q | q in s'.providerLookups
      ensures q < |s'.queries| && s'.providerLookups[q] in s'.ledger
      ensures s'.queries[q] == ProvidersForCall(s'.ledger[s'.providerLookups[q]].group)
    {
      if q in s.providerLookups && s'.providerLookups[q] == s.providerLookups[q] {
        assert MovesOne(s.calls, s.ledger, s'.calls, s'.ledger, s.providerLookups[q]);
      }
    }
  }

  /** In every run a call's lookup is a DHT query for the providers of just its group. */
  lemma {:induction false} LookupsAskForTheirGroup(cfg: Config, steps: seq<Step>)
    requires IsRun(INITIAL, cfg, steps)
    ensures LookupsForTheirGroup(After(INITIAL, cfg, steps))
    decreases |steps|
  {
    hide Next, Enabled, LookupsForTheirGroup;
    if steps == [] {
      NoLookupsYet();
    } else {
      var m := LastStep(cfg, steps);
      RunReaches(cfg, steps[..|steps| - 1]);
      LookupsAskForTheirGroup(cfg, steps[..|steps| - 1]);
      StepKeepsLookups(cfg, m, steps[|steps| - 1]);
    }
  }

  lemma NoLookupsYet()
    ensures LookupsForTheirGroup(INITIAL)
  {
  }

  // -------- progress

  /** A try never adds work to a call that goes on. */
  lemma AdvanceAddsNoWork(cfg: Config, s: State, id: nat, connected: set<Peer>)
    requires BooksKept(s.calls, s.ledger) && id in s.calls && id in Advance(s, id, connected).calls
    ensures Potential(Advance(s, id, connected).calls[id]) <= Potential(s.calls[id])
  {
    var c := s.calls[id];
    if !c.inFlight && !c.resolving {
      var dialable := connected + s.book.addresses.Keys;
      ActKeepsAccount(c, Past(s.ledger, id), dialable);
      CallOfTheTry(s, id, c, Choose(c.candidates, c.resolved, dialable));
    }
  }

  lemma CallOfTheTry(s: State, id: nat, c: Call, pick: Pick)
    ensures id in Act(s, id, c, pick).calls ==> Act(s, id, c, pick).calls[id] == CallAfter(c, pick)
  {
    if pick.choice.Nobody? && !c.lookupRunning {
      GiveUpShape(s, id, c, pick);
    } else {
      TryShape(s, id, c, pick);
    }
  }

  /** A failed request strictly lowers the work left of a call that goes on. */
  lemma FailureSpends(cfg: Config, s: State, peer: Peer, request: nat, error: SendError, now: Time,
                      connected: set<Peer>)
    requires Reachable(cfg, s) && request in s.outbound && s.outbound[request] in s.calls
    requires s.outbound[request] in RequestFailed(s, peer, request, error, now, connected).calls
    ensures var id := s.outbound[request];
            Potential(RequestFailed(s, peer, request, error, now, connected).calls[id]) < Potential(s.calls[id])
  {
    ReachableInv(cfg, s);
    RequestsAreLiveOrStale(cfg, s, request);
    var s' := s.(failed := RememberFailure(s.failed, peer, now));
    FailuresBounded(s.failed, peer, now);
    MemorySound(s, cfg, s'.failed, s.lastSuccess, s.book);
    RequestEndsSound(s', cfg, request, FailureOf(error));
    AdvanceAddsNoWork(cfg, RequestEnds(s', request, FailureOf(error)), s.outbound[request], connected);
  }

  /** So does a reply that is not accepted. */
  lemma RefusalSpends(cfg: Config, s: State, peer: Peer, request: nat, frame: Bytes, nowMs: nat, now: Time,
                      connected: set<Peer>)
    requires Reachable(cfg, s) && request in s.outbound && s.outbound[request] in s.calls
    requires Accept(cfg.prims, peer, s.calls[s.outbound[request]].group, frame, nowMs).None?
    requires s.outbound[request] in Replied(s, cfg, peer, request, frame, nowMs, now, connected).calls
    ensures var id := s.outbound[request];
            Potential(Replied(s, cfg, peer, request, frame, nowMs, now, connected).calls[id]) < Potential(s.calls[id])
  {
    ReachableInv(cfg, s);
    RequestsAreLiveOrStale(cfg, s, request);
    var id, done := s.outbound[request], RequestEnds(s, request, FAIL_REFUSED);
    RequestEndsSound(s, cfg, request, FAIL_REFUSED);
    AdvanceAddsNoWork(cfg, done.(failed := RememberFailure(s.failed, peer, now)), id, connected);
  }

  /** And so does a finished address lookup, whatever it found. */
  lemma LookupSpends(cfg: Config, s: State, query: nat, found: seq<Found>, connected: set<Peer>)
    requires Reachable(cfg, s) && query in s.resolutions && s.resolutions[query] in s.calls
    requires s.resolutions[query] in ClosestFound(s, cfg, query, found, connected).calls
    ensures var id := s.resolutions[query];
            Potential(ClosestFound(s, cfg, query, found, connected).calls[id]) < Potential(s.calls[id])
  {
    ReachableInv(cfg, s);
    ResolutionsAreLiveOrStale(cfg, s, query);
    LearningSound(s, cfg, found);
    var walk := if query in s.walks then s.walks[query] else 0;
    ResolutionSpends(cfg, s.(book := LearnAll(s.book, found)), query, FoundEvents(cfg, walk, found), connected);
  }

  lemma LearningSound(s: State, cfg: Config, found: seq<Found>)
    requires Sound(cfg, s)
    ensures Sound(cfg, s.(book := LearnAll(s.book, found)))
  {
    LearnAllKeepsBook(s.book, found);
    MemorySound(s, cfg, s.failed, s.lastSuccess, LearnAll(s.book, found));
  }

  lemma ResolutionSpends(cfg: Config, s: State, query: nat, events: seq<Event>, connected: set<Peer>)
    requires Sound(cfg, s) && query in s.resolutions && s.resolutions[query] in s.calls
    requires s.calls[s.resolutions[query]].resolving
    requires s.resolutions[query] in Closest(s, query, events, connected).calls
    ensures var id := s.resolutions[query];
            Potential(Closest(s, query, events, connected).calls[id]) < Potential(s.calls[id])
  {
    ResolutionEndsSound(s, cfg, query);
    AdvanceAddsNoWork(cfg, ResolutionEnds(s, query), s.resolutions[query], connected);
  }

  /**
    * Over any part of any run: completions are paid out of the potential, which only newly reported
    * peers raise, by two each; and nothing done for a call is ever undone.
    */
  lemma PotentialPaysForWork(cfg: Config, s: State, steps: seq<Step>, id: nat)
    requires Reachable(cfg, s) && IsRun(s, cfg, steps) && id in s.calls
    ensures var s' := After(s, cfg, steps);
            && id in s.ledger && id in s'.ledger && Grows(s.ledger[id], s'.ledger[id])
            && (id in s'.calls ==>
                  Potential(s'.calls[id]) + (s'.ledger[id].completions - s.ledger[id].completions)
                  <= Potential(s.calls[id]) + 2 * (|s'.ledger[id].reported| - |s.ledger[id].reported|))
  {
    ReachableInv(cfg, s);
    LiveHistory(cfg, s, id);
    RunMoves(s, cfg, steps);
    assert MovesOne(s.calls, s.ledger, After(s, cfg, steps).calls, After(s, cfg, steps).ledger, id);
  }

  // -------- the end of a call

  predicate IsOutcome(e: Event) {
    e.RpcResponse? || e.RpcFailed?
  }

  /** A call that was started has told its caller nothing while it is live, and one outcome once it is not. */
  lemma OneOutcome(cfg: Config, s: State, id: nat)
    requires Reachable(cfg, s) && id in s.ledger
    ensures if id in s.calls then EventsOf(s.log, id) == []
            else |EventsOf(s.log, id)| == 1 && IsOutcome(EventsOf(s.log, id)[0])
  {
    ReachableInv(cfg, s);
    assert EventsOf(s.log, id) == Told(cfg.prims, id, s.ledger[id]);
    assert AnsweredRightly(cfg, s.ledger[id]);
  }

  /** Whatever happens after the end of a call: no other event, request or lookup for it, and it stays over. */
  lemma NothingAfterTheEnd(cfg: Config, s: State, steps: seq<Step>, id: nat)
    requires Reachable(cfg, s) && IsRun(s, cfg, steps)
    requires id in s.ledger && id !in s.calls
    ensures var s' := After(s, cfg, steps);
            && id !in s'.calls && id in s'.ledger && s'.ledger[id] == s.ledger[id]
            && EventsOf(s'.log, id) == EventsOf(s.log, id)
            && PeersAsked(s'.sent, id) == PeersAsked(s.sent, id)
            && PeersLooked(s'.queries, id) == PeersLooked(s.queries, id)
  {
    var s' := After(s, cfg, steps);
    ReachableInv(cfg, s);
    RunKeepsInv(s, cfg, steps);
    RunMoves(s, cfg, steps);
    assert MovesOne(s.calls, s.ledger, s'.calls, s'.ledger, id);
    assert EventsOf(s.log, id) == Told(cfg.prims, id, s.ledger[id]);
    assert EventsOf(s'.log, id) == Told(cfg.prims, id, s'.ledger[id]);
  }

  /** A tick ends exactly the calls whose deadline has passed. */
  lemma {:induction false} TickEndsTheExpired(s: State, order: seq<nat>)
    ensures Expire(s, order).calls == s.calls - Elements(order)
  {
    if order != [] {
      var before, last := order[..|order| - 1], order[|order| - 1];
      TickEndsTheExpired(s, before);
      assert order == before + [last];
      assert Elements(order) == Elements(before) + {last};
      assert (s.calls - Elements(before)) - {last} == s.calls - Elements(order);
    }
  }

  lemma NobodyOutlivesItsDeadline(s: State, cfg: Config, now: Time, order: seq<nat>)
    requires Enabled(s, cfg, OnTick(now, order))
    ensures var s' := Next(s, cfg, OnTick(now, order));
            && (forall id :: id in s'.calls <==> id in s.calls && now < s.calls[id].deadline)
            && (forall id :: id in s'.calls ==> s'.calls[id] == s.calls[id])
  {
    TickEndsTheExpired(s, order);
  }

  // -------- what a response says

  /** The grounds on which the reply in `frame` may be reported as `e`. */
  ghost predicate Grounds(prims: Primitives, e: Event, peer: Peer, frame: Bytes, nowMs: nat)
    requires e.RpcResponse?
  {
    var response := Wire.DecodeResponse(frame);
    && prims.keyOf(peer) == Some(e.node)
    && response.Some? && response.value.payload == e.data
    && var parsed := Delegations.Parse(response.value.delegation);
    && parsed.Ok?
    && var d := parsed.delegation;
    && d.node == e.node && d.group == e.group
    && prims.publicKey(e.group)
    && prims.signed(e.group, Delegations.Message(e.node, e.group, d.expiresMs), d.signature)
    && (d.expiresMs == 0 || nowMs < d.expiresMs)
  }

  lemma AcceptedOnGrounds(prims: Primitives, peer: Peer, group: Key, frame: Bytes, nowMs: nat, e: Event)
    requires e.RpcResponse? && e.group == group
    ensures Accept(prims, peer, group, frame, nowMs) == Some(Answer(e.node, e.data)) <==>
              Grounds(prims, e, peer, frame, nowMs)
  {
    var response := Wire.DecodeResponse(frame);
    if response.Some? && prims.keyOf(peer).Some? {
      Wire.ResponseFrameRoundTrip(frame);
      var parsed := Delegations.Parse(response.value.delegation);
      if parsed.Ok? {
        Delegations.AcceptedExactlyWhen(prims, parsed.delegation, prims.keyOf(peer).value, nowMs);
      }
    }
  }

  lemma EventIsItsCalls(log: seq<Event>, e: Event)
    requires e in log
    ensures e in EventsOf(log, e.id)
  {
    var k :| 0 <= k < |log| && log[k] == e;
    if k < |log| - 1 {
      assert log[..|log| - 1][k] == e;
      EventIsItsCalls(log[..|log| - 1], e);
    }
  }

  lemma WhoseReply(cfg: Config, s: State, e: Event) returns (peer: Peer, frame: Bytes, nowMs: nat)
    requires Inv(cfg, s) && e in s.log && e.RpcResponse?
    ensures e.id in s.ledger && e.group == s.ledger[e.id].group && e.protocol == s.ledger[e.id].protocol
    ensures peer in s.ledger[e.id].asked && Grounds(cfg.prims, e, peer, frame, nowMs)
    ensures s.ledger[e.id].outcome == Answered(peer, frame, nowMs)
  {
    EventIsItsCalls(s.log, e);
    var id := e.id;
    assert e.id in s.ledger || e.id in s.searches;
    assert id in s.searches ==> e in Shown(id, s.searches[id]);
    var h := s.ledger[id];
    assert e in Told(cfg.prims, id, h);
    assert AnsweredRightly(cfg, h);
    peer, frame, nowMs := h.outcome.peer, h.outcome.frame, h.outcome.nowMs;
    AcceptedOnGrounds(cfg.prims, peer, h.group, frame, nowMs, e);
  }

  /**
    * The step is the arrival of a reply to a request outstanding for the live call, from the peer that was sent
    * the call's frame, and this reply is the ground for the event.
    */
  ghost predicate RepliesWith(cfg: Config, m: State, step: Step, e: Event, frame: Bytes)
    requires e.RpcResponse?
  {
    && step.OnReply? && e.id in m.calls
    && step.request in m.outbound && m.outbound[step.request] == e.id
    && step.request < |m.sent| && m.sent[step.request] == Sent(e.id, step.peer, frame)
    && Grounds(cfg.prims, e, step.peer, step.frame, step.nowMs)
  }

  /** An accepted reply arrived in some step of the run, when its call still had the frame it has. */
  lemma {:induction false} AnsweredAt(cfg: Config, steps: seq<Step>, id: nat) returns (i: nat, m: State)
    requires IsRun(INITIAL, cfg, steps) && Past(After(INITIAL, cfg, steps).ledger, id).outcome.Answered?
    ensures At(cfg, steps, i, m)
    ensures WordIn(cfg, m, steps[i]) == Some(Word(id, Past(After(INITIAL, cfg, steps).ledger, id).outcome))
    ensures id in m.ledger && m.ledger[id].frame == Past(After(INITIAL, cfg, steps).ledger, id).frame
    decreases |steps|
  {
    hide Next, Enabled, WordIn, Sound;
    m := LastStep(cfg, steps);
    i := |steps| - 1;
    var s' := Next(m, cfg, steps[i]);
    RunReaches(cfg, steps[..i]);
    StepTraced(m, cfg, steps[i]);
    StepMoves(m, cfg, steps[i]);
    assert TracedOne(Past(m.ledger, id), Past(s'.ledger, id), id, TraceOf(cfg, m, steps[i], s'.book));
    assert id in m.ledger ==> MovesOne(m.calls, m.ledger, s'.calls, s'.ledger, id);
    if Past(m.ledger, id).outcome == Past(s'.ledger, id).outcome {
      i, m := AnsweredAt(cfg, steps[..i], id);
      AtInLongerRun(cfg, steps, i, m);
    } else {
      WordIsOfALiveCall(cfg, m, steps[i]);
    }
  }

  lemma WordIsOfALiveCall(cfg: Config, s: State, step: Step)
    requires Sound(cfg, s) && WordIn(cfg, s, step).Some?
    ensures var id := WordIn(cfg, s, step).value.id; id in s.calls && id in s.ledger
  {
    LiveHistory(cfg, s, WordIn(cfg, s, step).value.id);
  }

  lemma WordRepliesWith(cfg: Config, m: State, step: Step, e: Event)
    requires Sound(cfg, m) && Enabled(m, cfg, step) && e.RpcResponse? && e.id in m.ledger
    requires step.OnReply? && WordIn(cfg, m, step) == Some(Word(e.id, Answered(step.peer, step.frame, step.nowMs)))
    requires Grounds(cfg.prims, e, step.peer, step.frame, step.nowMs)
    ensures RepliesWith(cfg, m, step, e, m.ledger[e.id].frame)
  {
    assert step.request in m.outbound;
  }

  /**
    * Every response in the log of a run was the reply that arrived in one of its steps, to a request that the call
    * had sent to just that peer, in a frame whose delegation bound the peer's key to the called group at that time.
    */
  lemma ResponsesAreRightful(cfg: Config, steps: seq<Step>, e: Event)
    requires IsRun(INITIAL, cfg, steps) && e in After(INITIAL, cfg, steps).log && e.RpcResponse?
    ensures var s := After(INITIAL, cfg, steps);
            && e.id in s.ledger && e.group == s.ledger[e.id].group && e.protocol == s.ledger[e.id].protocol
            && exists i: nat, m: State :: At(cfg, steps, i, m) && RepliesWith(cfg, m, steps[i], e, s.ledger[e.id].frame)
  {
    hide Next, Enabled, Sound, Grounds, RepliesWith;
    var s := After(INITIAL, cfg, steps);
    RunReaches(cfg, steps);
    var peer, frame, nowMs := WhoseReply(cfg, s, e);
    var i, m := AnsweredAt(cfg, steps, e.id);
    RunReaches(cfg, steps[..i]);
    WordRepliesWith(cfg, m, steps[i], e);
  }

  /** A pinned call asks no other peer than the pinned one, and a call to a group never the node itself. */
  lemma OnlyTheRightPeersAreAsked(cfg: Config, s: State, i: nat)
    requires Reachable(cfg, s) && i < |s.sent|
    ensures s.sent[i].call in s.ledger
    ensures var h := s.ledger[s.sent[i].call];
            && s.sent[i].frame == h.frame
            && match h.pinned {
                 case Some(k) => cfg.prims.peerOf(k) == Some(s.sent[i].peer)
                 case None => s.sent[i].peer != cfg.localPeer
               }
  {
    ReachableInv(cfg, s);
    var id := s.sent[i].call;
    SentIsAsked(s.sent, i);
    WorkIsBounded(cfg, s, id);
    assert AskedRightly(cfg, s.ledger[id]);
  }

  lemma {:induction false} SentIsAsked(sent: seq<Sent>, i: nat)
    requires i < |sent|
    ensures sent[i].peer in PeersAsked(sent, sent[i].call)
    decreases |sent|
  {
    if i < |sent| - 1 {
      SentIsAsked(sent[..|sent| - 1], i);
    }
  }

  /** The response to a pinned call names the pinned key. */
  lemma PinnedResponsesNameThePin(cfg: Config, s: State, e: Event, k: Key)
    requires Reachable(cfg, s) && e in s.log && e.RpcResponse? && KeysRoundTrip(cfg.prims)
    requires e.id in s.ledger && s.ledger[e.id].pinned == Some(k)
    ensures e.node == k
  {
    ReachableInv(cfg, s);
    var peer, frame, nowMs := WhoseReply(cfg, s, e);
    HistoryWithinReports(s.calls, s.ledger, e.id);
    PinnedPeer(cfg, s.ledger[e.id], k, peer);
  }

  lemma PinnedPeer(cfg: Config, h: History, k: Key, peer: Peer)
    requires AskedRightly(cfg, h) && h.pinned == Some(k) && KeysRoundTrip(cfg.prims)
    requires peer in h.asked && multiset(h.asked) <= multiset(h.reported)
    ensures cfg.prims.keyOf(peer) == Some(k)
  {
    WithinASet(h.asked, h.reported);
    assert peer in Target(cfg.prims, k);
  }

  // -------- searches

  /** A search tells what it found, then its result as the last event, and it has ended when it did. */
  lemma SearchEvents(cfg: Config, s: State, id: nat, i: nat)
    requires Reachable(cfg, s) && id in s.searches && i < |EventsOf(s.log, id)|
    ensures var events := EventsOf(s.log, id);
            && id !in s.ledger
            && (events[i].Discovered? || (events[i].DhtResult? && i == |events| - 1))
            && (i == |events| - 1 ==> (events[i].DhtResult? <==> s.searches[id].result.Some?))
  {
    ReachableInv(cfg, s);
    var search := s.searches[id];
    assert EventsOf(s.log, id) == Shown(id, search);
    if i < |search.found| {
      assert search.found[i] in search.found;
    }
  }

  /** A search has ended exactly when its query is in none of the tables any more. */
  lemma SearchRunsWhileTabled(cfg: Config, s: State, id: nat)
    requires Reachable(cfg, s) && id in s.searches
    ensures s.searches[id].result.None? <==> exists q :: InATable(s, id, q)
  {
    ReachableInv(cfg, s);
    if s.searches[id].result.None? {
      assert InATable(s, id, s.searches[id].query);
    }
  }

  /** What a search told stays told; once it has its result it tells no more. */
  lemma NothingAfterTheResult(cfg: Config, s: State, steps: seq<Step>, id: nat)
    requires Reachable(cfg, s) && IsRun(s, cfg, steps) && id in s.searches
    ensures var s' := After(s, cfg, steps);
            && id in s'.searches && EventsOf(s.log, id) <= EventsOf(s'.log, id)
            && (s.searches[id].result.Some? ==> EventsOf(s'.log, id) == EventsOf(s.log, id))
  {
    var s' := After(s, cfg, steps);
    ReachableInv(cfg, s);
    RunKeepsInv(s, cfg, steps);
    RunLengthens(s, cfg, steps);
    EventsOfPrefix(s.log, s'.log, id);
    EndsWithItsResult(id, s.searches[id], s'.searches[id]);
  }

  lemma {:induction false} EventsOfPrefix(log: seq<Event>, longer: seq<Event>, id: nat)
    requires log <= longer
    ensures EventsOf(log, id) <= EventsOf(longer, id)
    decreases |longer|
  {
    if |log| < |longer| {
      EventsOfPrefix(log, longer[..|longer| - 1], id);
    } else {
      assert log == longer;
    }
  }

  lemma EndsWithItsResult(id: nat, before: Search, after: Search)
    requires Shown(id, before) <= Shown(id, after)
    requires forall e :: e in after.found ==> e.Discovered?
    ensures before.result.Some? ==> Shown(id, after) == Shown(id, before)
  {
    forall i | 0 <= i < |after.found|
      ensures Shown(id, after)[i].Discovered?
    {
      assert after.found[i] in after.found;
    }
    assert before.result.Some? ==> Shown(id, after)[|before.found|] == DhtResult(id, before.result.value);
  }

  /** The number of tables a query id is routed by. */
  function TablesWith(s: State, q: nat): nat {
    (if q in s.providerLookups then 1 else 0) + (if q in s.resolutions then 1 else 0)
    + (if q in s.bootstraps then 1 else 0) + (if q in s.walks then 1 else 0)
    + (if q in s.providerQueries then 1 else 0) + (if q in s.topicLookups then 1 else 0)
  }

  lemma QueryIsInOneTable(cfg: Config, s: State, q: nat)
    requires Reachable(cfg, s)
    ensures TablesWith(s, q) <= 1
  {
    ReachableInv(cfg, s);
  }

  // -------- what is remembered

  lemma MemoryIsBounded(cfg: Config, s: State)
    requires Reachable(cfg, s)
    ensures |s.failed| <= MAX_REMEMBERED && |s.lastSuccess| <= MAX_REMEMBERED
    ensures ValidBook(s.book) && forall p :: Knows(s.book, p) ==> 1 <= |Addresses(s.book, p)| <= MAX_ADDRESSES_PER_PEER
  {
    ReachableInv(cfg, s);
  }
}
