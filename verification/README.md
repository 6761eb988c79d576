# libp2p-ffi: the node's own logic, verified

libp2p-ffi wraps rust-libp2p behind a C interface. What it adds of its own is a set of state machines, and this
project models them in Dafny and proves what they are for:

- **Calls** (`Calls`, `NodeSpec`, `Node`, `Call*`, `Node*`): a call to a group collects providers from the DHT, tries
  them one at a time, looks up missing addresses once per peer, moves on after failures and bad replies, and ends in
  one response, one failure or one timeout. Searches (bootstrap, random walk, find providers) share its tables.
- **Rate limits** (`Buckets`, `Limits*`, `SourceRate`): token buckets that are made on first sight, refilled when
  touched and swept away when full.
- **Events** (`Record`, `EventQueue`, `QueueRuns`, `ReplyRecord`): the record format and the bounded queue behind
  `lp2p_poll`.
- **Wire and delegations** (`Codec`, `Wire`, `Delegation`): the frames and the signed membership they carry.
- **Address book** (`Multiaddr`, `AddressBook`) and **reachability** (`Reachability`, `ReachabilityNode`).

Each machine is written twice. Functions on a value say what a step does (`NodeSpec`, `LimitsSpec`, `EventQueues`,
`ReachabilitySpec`); lemmas about runs of these functions state the properties. A class with the source's fields
does the same in place, loops included, and every method is proved to be the function on the old state. The value of
a node also holds what no program keeps: all requests and queries ever made, all events, and a history per call.

`dafny verify dfyconfig.toml` checks everything.

## Conventions

- A run is any sequence of steps whose environment keeps its word (`NodeSpec.Enabled`): ids handed to the caller are
  new, the protocol of a call is registered, a reply comes from the peer that was asked, a tick lists the calls that
  are over. Which peers are connected, what the DHT finds, the clocks and the order of hash tables are arbitrary at
  each step. Request and query ids are the swarm's counters: positions in the sequences of all of them.
- One handler reads each clock once, except that every provider in a DHT result is queued with a reading of its own.
- ed25519, the key inside a peer id and UTF-8 are a parameter (`Primitives`); the theorems hold for all of them, and
  the one that needs a key to survive the trip through its peer id says so.
- Times are milliseconds, for buckets seconds as reals, and tokens are reals where the source has `f64`. Rates,
  counts and ids are natural numbers. Operations on buckets come at nondecreasing times.
- Records are in little-endian order, which is what the source's native order means on the platforms it builds for.
- `hide` in a proof keeps a definition from being unfolded there; it takes facts away and adds none.

## Where code and documentation differ

- `include/libp2p_ffi.h:250-252` sizes the poll buffer for the configured maximum payload. Replies may be 256 bytes
  longer (`src/node.rs:487-493`), and then do not fit: `ReplyRecords`.
- `include/libp2p_ffi.h:132-135` promises a REACHABILITY event with each switch, and that an UNKNOWN node starts as
  PUBLIC. The code starts as UNKNOWN, which announces like PUBLIC, and tells so after its listeners are up even if
  AutoNAT has decided before: `ReachabilitySpec.StartTellsTheTruthExactlyWhen` has the exact condition,
  `EarlyVerdictIsHidden` a run. The wait for listeners ends after two seconds (`src/node.rs:41`), and only the
  test-loopback feature makes AutoNAT start sooner than that (`src/node.rs:404-406`).
- `src/limits.rs:130` promises that a new rate does not give used tokens back. It prices the time since a bucket was
  last touched anew, which can fill it at once: `Buckets.NeutralExactlyWhen` has the exact condition.
- `src/events.rs:125` promises the status for the first poll of a drained queue; an unreported drop count is drained
  first, too: `QueueRuns.ClosedWhenDrained`.

## Model

| member | source | states |
|---|---|---|
| `NodeTheorems.LiveCallWaitsForOneThing` | src/node.rs:549-564 | in every reachable state a live call is in flight with exactly one request, or resolving with exactly one address lookup, or idle with an empty queue and its provider lookup running; a running provider lookup has exactly one entry |
| `NodeTheorems.RequestsAreLiveOrStale` | src/node.rs:1710-1721 | every outstanding request belongs to a call that was started: a live one that is in flight on just this request, or one that is over |
| `NodeTheorems.ResolutionsAreLiveOrStale` | src/node.rs:1648-1652 | the same for address lookups |
| `NodeTheorems.LookupsAreLiveOrStale` | src/node.rs:1615-1634 | the same for provider lookups |
| `NodeTheorems.ChooseTakesTheFirst` | src/node.rs:947-967 | the search for the next candidate takes the first one that is dialable or not looked up yet, drops exactly those before it, and keeps the order of the rest |
| `NodeTheorems.GivenUpWhileUndialable` | src/node.rs:947-957 | whatever the step, a peer that a call newly gives up in it is not among those the handler finds connected, not in the address book after the step, and had its addresses looked up for the call |
| `NodeTheorems.SeenIsPartitioned` | src/node.rs:555-559 | `seen` of a live call is the disjoint union of the peers the swarm was told to ask, the queued ones and the given-up ones, none twice |
| `NodeTheorems.ExhaustedTriedEveryone` | src/node.rs:940-977 | at the end of any run, a call that failed for want of peers has asked each peer reported to it exactly once, or looked it up exactly once and given it up in some step of the run in which it was neither connected nor in the address book |
| `NodeTheorems.WorkIsBounded` | src/node.rs:940-978 | with n peers reported a call makes at most n requests and n address lookups, never two to one peer and none to others, and sees at most 2n completions |
| `NodeTheorems.HeardIsReported` | src/node.rs:1615-1625 | over every run the peers reported to a call are exactly the pinned peer, or the providers other than the node itself in the DHT results that arrived for the call's lookup while it was live |
| `NodeTheorems.LookupsAskForTheirGroup` | src/node.rs:847-853 | in every run the provider lookup of a call is a DHT query for just its group |
| `NodeTraces.StepTraced` | src/node.rs:815-1002 | one step adds to the histories of all calls only what that step is about: peers its own handler found undialable, peers its own result reported, the reply it brought, the lookup it started |
| `NodeMemory.UnreachablePeerIsGivenUp` | src/node.rs:940-977 | a concrete run: a call pinned to a peer that cannot be dialed looks it up once, sends nothing, gives it up and ends as unreachable |
| `NodeTheorems.FailureSpends` | src/node.rs:1702-1721 | a failed request strictly lowers the work left of a call that goes on |
| `NodeTheorems.RefusalSpends` | src/node.rs:1842-1848 | so does a reply that is not accepted |
| `NodeTheorems.LookupSpends` | src/node.rs:1635-1652 | so does a finished address lookup, whatever it found |
| `NodeTheorems.PotentialPaysForWork` | src/node.rs:940-978 | over any part of any run completions are paid out of a natural-number potential that only newly reported peers raise, by two each; nothing done for a call is undone |
| `NodeTheorems.OneOutcome` | src/node.rs:968-977 | a started call has emitted nothing while it is live, and exactly one RPC_RESPONSE or RPC_FAILED once it is not |
| `NodeTheorems.NothingAfterTheEnd` | src/node.rs:988-999 | whatever happens after the end of a call: no event, request or lookup for it, and it never comes back |
| `NodeTheorems.NobodyOutlivesItsDeadline` | src/node.rs:980-999 | a tick ends exactly the calls whose deadline has passed and leaves the others as they are |
| `NodeTheorems.ResponsesAreRightful` | src/node.rs:1802-1841 | every RPC_RESPONSE in the log of a run is the reply that arrived in one of its steps, from the peer that had been sent the call's frame under that request; the event carries the payload of that very frame, whose delegation the called group's key signed for the peer's key and which had not expired by the clock read in that step |
| `NodeTheorems.AcceptedOnGrounds` | src/node.rs:1817-1824 | a reply is accepted exactly on these grounds, no more and no fewer |
| `NodeTheorems.OnlyTheRightPeersAreAsked` | src/node.rs:839-854 | every request carries its call's frame and goes, for a pinned call, to the peer of the pinned key, and for a call to a group never to the node itself |
| `NodeTheorems.PinnedResponsesNameThePin` | src/node.rs:839-845 | the response to a pinned call names the pinned key, provided keys survive the trip through peer ids |
| `NodeTheorems.SearchEvents` | src/node.rs:1592-1613 | the events of a bootstrap, walk or provider search are finds, then at most one result, which is the last and is there exactly when the search has ended |
| `NodeTheorems.NothingAfterTheResult` | src/node.rs:1653-1663 | what a search told stays told, and after its result it tells nothing more, in any continuation of any run |
| `NodeTheorems.SearchRunsWhileTabled` | src/node.rs:1665-1679 | a search is without a result exactly as long as its query is in one of the tables |
| `NodeTheorems.QueryIsInOneTable` | src/node.rs:1580-1663 | a DHT query id is in at most one of the six lookup tables |
| `NodeTheorems.MemoryIsBounded` | src/node.rs:1852-1861 | the failure and success memories hold at most 4096 entries, and a peer the book knows has one to eight addresses |
| `NodeSteps.StepKeepsInv` | src/node.rs:815-1002 | each handler keeps the whole invariant: tables against flags, books of every call, rights, log, what was sent, queries, memory |
| `NodeSteps.RunKeepsInv` | src/node.rs:785-797 | so does every run of commands, ticks and swarm events |
| `NodeInvariant.AdvanceSound` | src/node.rs:940-978 | from a state in which one call may have nothing to wait for, trying its next candidate restores that every live call waits |
| `NodeProgress.RunMoves` | src/node.rs:785-797 | over every run histories only grow, work is paid for, and a call that is over is never touched again |
| `NodeGrowth.RunLengthens` | src/node.rs:781-783 | no run takes back an event, a request or a query, or forgets a search |
| `CallAccount.ChooseSplits` | src/node.rs:947-967 | one search for a candidate splits the queue into dropped, rest and asked without losing or doubling anyone, and costs work |
| `CallAccount.ActKeepsAccount` | src/node.rs:940-978 | trying the next candidate keeps the books of the call and never adds work |
| `CallAccount.ReportsKeepAccount` | src/node.rs:1618-1625 | a DHT result keeps the books; each peer that is new adds at most two units of work |
| `CallTables.LookingKeepsTables` | src/node.rs:824-857 | a started call enters the tables consistently |
| `CallBooks.OpenBooksClose` | src/node.rs:968-977 | books that are right while a call is live are right when it ends, and balanced when it ends by exhaustion |
| `NodeLog.LastWord` | src/node.rs:968-977 | the one outcome event of a call keeps every other caller's log as it was |
| `NodeQueries.SearchEndKeepsQueries` | src/node.rs:1603-1613 | the end of a search takes its query out of its table and leaves all other searches running |
| `Calls.QueueIsPromisedOrder` | src/node.rs:635-664 | for one clock and one memory, queueing any list of providers into an empty queue gives the last good node if it was reported and is not penalized, then the other unpenalized peers as first reported, then the penalized ones as first reported, each once |
| `Calls.PenalizedWait` | src/node.rs:653-663 | in any queue whatsoever a newly queued unpenalized peer comes before every peer that is penalized now |
| `Calls.EnqueueAddsOnce` | src/node.rs:643-645 | a peer is queued at most once, nobody is lost, nothing else of the call changes |
| `Calls.Queue` | src/node.rs:637-664 | the queueing with its scan for the first penalized candidate computes the specified place |
| `NodeMemory.StepReaches` | src/node.rs:785-797 | what holds of every reachable state holds again after any further step |
| `NodeMemory.FailureIsPenalized` | src/node.rs:1708-1709 | in the memory as a failed request leaves it, the peer is penalized at any time within five minutes; later steps may forget it |
| `NodeMemory.PenalizedComeLast` | src/node.rs:1615-1625 | after a result, with one clock reading, reached a call with an empty queue, nobody unpenalized is queued behind a penalized peer |
| `NodeMemory.HearQueuesInPromisedOrder` | src/node.rs:1615-1625 | a DHT result that reaches a call with an empty queue leaves it with the peers new to the call in the promised order |
| `NodeMemory.ReportsQueueTheNews` | src/node.rs:1619-1624 | what a DHT result does to any call is what queueing the peers it has not heard of, less the node itself, does to a call that has heard of nobody |
| `NodeMemory.SuccessIsRemembered` | src/node.rs:1826-1833 | an accepted reply clears its peer, makes it the last good node of the group, and ends the call |
| `NodeMemory.NextCallAsksItFirst` | src/node.rs:1615-1634 | a waiting call whose DHT result names the group's last good node, which has not failed since, sends its request to that peer in the same step if it can be dialed and looks its addresses up otherwise, whoever else is reported, queued or penalized and whatever the clock reads for each |
| `NodeMemory.FailureIsTheReason` | src/node.rs:1713-1721 | a call whose request failed goes on, or ends by exhaustion, with the reason of that failure |
| `NodeMemory.RefusalIsTheReason` | src/node.rs:1842-1848 | one whose reply was not accepted goes on, or ends, as refused |
| `NodeMemory.UnreachableAtFirst` | src/node.rs:837-856 | one that has nobody to ask starts, or ends at once, as unreachable |
| `Nodes.Node.Advance` | src/node.rs:940-978 | the loop over the candidates does exactly what the specification says of the old state, tables, swarm and event log included |
| `Nodes.Node.Rpc` | src/node.rs:817-857 | the call enters the tables as specified, with the pinned candidate or a provider lookup, and gets its first try; `LookingKeepsTables` and `OnlyTheRightPeersAreAsked` are about that state |
| `Nodes.Node.Bootstrap` | src/node.rs:875-886 | one query routed to this search, or, when the DHT refuses, its failed result at once and nothing in a table |
| `Nodes.Node.RandomWalk` | src/node.rs:887-890 | one query routed to this search and to no other table, nothing said yet |
| `Nodes.Node.FindProviders` | src/node.rs:927-933 | one query routed to this search and to no other table, nothing said yet |
| `Nodes.Node.TopicLookup` | src/node.rs:1152-1157 | one query routed to this topic and to no other table |
| `Nodes.Node.AddAddresses` | src/node.rs:1567-1575 | each address is added to the book once, in order, and nothing else changes |
| `Nodes.Node.Tick` | src/node.rs:980-999 | exactly the calls whose time is over are ended, each once, in whatever order the table lists them |
| `Nodes.Node.ProvidersProgressed` | src/node.rs:1586-1634 | providers are queued for the call, or shown for the search, or belong to a topic, by the one table that has the query; a stale query changes nothing |
| `Nodes.Node.ClosestProgressed` | src/node.rs:1635-1664 | both loops teach the book every address found; the address lookup ends and its call moves on, or the walk shows what it found and ends |
| `Nodes.Node.BootstrapDone` | src/node.rs:1665-1679 | only the last progress of a bootstrap of ours is told, with its reason, and the query leaves its table |
| `Nodes.Node.OutboundFailure` | src/node.rs:1702-1721 | the peer is remembered as failed even for a stale request; a live call gives the reason of this failure and moves on |
| `Nodes.Node.Response` | src/node.rs:1802-1850 | an accepted reply ends its call with one response event; any other marks the peer as failed and moves the call on; a reply without a call changes nothing but the request table |
| `Nodes.Node.Remember` | src/node.rs:1852-1861 | a full failure memory first forgets what is not penalized any more and, still full, everything, before the peer is entered |
| `AddressBooks.AddressBook.Add` | src/address_book.rs:30-47 | the map and the order after the update are the book of which `BookIsItsWindows` is proved |
| `AddressBooks.AddKeepsBook` | src/address_book.rs:30-47 | adding keeps the book in order, the peer known with that address; only the oldest entry is ever lost, and only from a full book to a new peer; no other peer's addresses change |
| `AddressBooks.BookIsItsWindows` | src/address_book.rs:24-55 | over any sequence of adds the order is the window of the last 4096 distinct peers and each list the window of the peer's last eight distinct addresses |
| `AddressBooks.KnownMeansDialable` | src/address_book.rs:49-55 | a known peer has one to eight distinct addresses to offer |
| `LimitsEager.LazyIsEager` | src/limits.rs:102-201 | from the start, over every run at times in order, every request is answered as by a model with an always-refilled bucket per limit and holder that is never forgotten; limits may be added, removed, or changed at the same speed to no higher burst meanwhile |
| `LimitsEager.RunsAgree` | src/limits.rs:142-201 | the same from any two states that show the same levels |
| `Buckets.RefillTwice` | src/limits.rs:102-107 | refilling on the way equals refilling once |
| `Buckets.NeutralExactlyWhen` | src/limits.rs:122-138 | a changed rate leaves what buckets held as it was (cut to the new burst) if and only if it keeps the tokens per second and does not raise the burst |
| `Buckets.ChangeReachesBack` | src/limits.rs:102-107 | a concrete change from one to ten tokens a second that fills a bucket emptied one second ago at once |
| `LimitsRuns.WindowBound` | src/limits.rs:142-201 | in any stretch of any run a limit that nobody sets admits from each of its buckets at most its burst plus its rate times the length, across admissions, refusals, sweeps, class changes and other limits |
| `LimitsRuns.EveryStretch` | src/limits.rs:124-201 | from the start, whatever was done before: rule ids are unique, no balance is negative, and the bound holds for any stretch that follows |
| `LimitsRuns.ApplyKeeps` | src/limits.rs:109-201 | after every operation rule ids are unique, every rule limits, no balance is negative or from the future, every bucket belongs to a rule |
| `LimitsRuns.RateAfterSetLimit` | src/limits.rs:122-138 | setting a limit sets the rate of its id, or removes it, and no other |
| `LimitsChecks.RefusalChangesNothing` | src/limits.rs:165-180 | a refused request leaves every balance, seen at any time from now on, as it was |
| `LimitsChecks.AdmissionTakesItsCost` | src/limits.rs:181-188 | an admitted request lowers each matching bucket by exactly its cost and no other, also when it sweeps |
| `LimitsChecks.VerdictIsTheLevels` | src/limits.rs:140-180 | a blocked class is refused as such; any other request is admitted exactly when no matching limit has too little left, and refused with the scope of the first that has |
| `LimitsChecks.SweepKeepsViews` | src/limits.rs:191-201 | a swept bucket is seen, from now on, exactly as if it were still there |
| `LimitsChecks.MatchingIsComplete` | src/limits.rs:147-162 | no limit that applies is left out |
| `LimitsChecks.MatchingHasOneDrawPerSlot` | src/limits.rs:147-162 | a request is counted at most once in a bucket |
| `LimitsSpec.SamePrefixExactlyWhen` | src/limits.rs:87-100 | two addresses share a prefix bucket exactly when they share an IPv4 /24 or an IPv6 /56 |
| `LimitsTable.Limits.Admit` | src/limits.rs:142-189 | both loops, the early return and the sweep compute the verdict and the table of which `LazyIsEager` is proved |
| `LimitsTable.Limits.SetRate` | src/limits.rs:124-138 | a limiting rate replaces the rule and keeps its buckets, any other removes both |
| `LimitsTable.Limits.SetClassOf` | src/limits.rs:110-116 | a group classed unknown is forgotten, any other class recorded |
| `LimitsTable.Limits.Clean` | src/limits.rs:192-201 | exactly the buckets of live rules that are not full by now stay, brought up to date, in whatever order they are visited |
| `SourceRates.PruningChangesNoAnswer` | src/limits.rs:236-242 | a source limiter that prunes answers every run exactly as one that never does |
| `SourceRates.SourceBound` | src/limits.rs:219-255 | no source is allowed more than the burst plus one announcement per interval in any stretch of time |
| `SourceRates.AllowTakesOneToken` | src/limits.rs:243-255 | a source is allowed exactly when it has a token left, loses just that one, and no other source loses any; balances stay between zero and the burst |
| `SourceRates.SourceRate.Permit` | src/limits.rs:236-255 | the buckets and the answer are those of which `SourceBound` and `PruningChangesNoAnswer` are proved |
| `Records.WalkRecovers` | tests/network.rs:19-33 | walking records by their header sizes recovers every event, each header field and data byte, and ends where the records end |
| `Records.HeaderSizeIsTrue` | src/events.rs:53-59 | the size in the header is the record's length if and only if that is below 2^32 |
| `Records.Build` | src/events.rs:53-73 | the record built field by field and padded byte by byte is the one that `WalkRecovers` reads back |
| `EventQueues.EventQueue.Enqueue` | src/events.rs:113-123 | the record is queued if it fits the bound and counted as dropped if it does not, and the byte count stays the sum of the queued lengths |
| `EventQueues.EventQueue.Shut` | src/events.rs:126-131 | only the first status is kept |
| `EventQueues.EventQueue.Drain` | src/events.rs:153-182 | the bytes in the caller's buffer, the status and the queue are the specified ones, and nothing of the buffer is touched behind the bytes counted |
| `EventQueues.FittingFits` | src/events.rs:164-176 | the records taken fit, and the next one would not have |
| `QueueRuns.Conservation` | src/events.rs:113-182 | over any run with buffers of any size below 2^31: the events the caller reads, followed by the queued ones, are the accepted ones in order, as records byte for byte; the counts it reads plus the pending one are the rejected pushes; the queue never exceeds its bound |
| `QueueRuns.WalkOfPoll` | src/events.rs:153-182 | walking what one poll wrote recovers the overflow report if one was due and the events taken, and ends exactly at the count returned |
| `QueueRuns.PollReplies` | src/events.rs:138-182 | each reply of poll stands for exactly one situation; what does not fit stays queued, and what would still fit is never left |
| `QueueRuns.EveryPushCounts` | src/events.rs:113-123 | accepted are exactly the pushes for which there was room when they were made, in their order; every other push is counted as rejected |
| `QueueRuns.ClosedWhenDrained` | src/events.rs:126-131 | the first close status is answered exactly when the queue is drained and owes no report |
| `ReplyRecords.FitsExactlyWhen` | include/libp2p_ffi.h:250-252 | the record of a payload fits the documented buffer if and only if the padded payload is at most eight bytes over the configured maximum |
| `ReplyRecords.ReplyOutgrowsTheBuffer` | src/node.rs:487-493 | a reply 256 bytes over the maximum is let through by the wire and then does not fit the documented buffer |
| `ReplyRecords.TooSmallStays` | src/events.rs:166-171 | a queue that answers "too small" answers it, unchanged, until a larger buffer comes |
| `Wire.RequestRoundTrip` | src/wire.rs:74-103 | decoding an encoded request gives back its parts if and only if the delegation has its length and the protocol name is UTF-8 of 1 to 255 bytes |
| `Wire.RequestFrameRoundTrip` | src/wire.rs:86-103 | a request frame that decodes is the one encoding of its parts |
| `Wire.ResponseRoundTrip` | src/wire.rs:118-134 | decoding an encoded response gives back its parts if and only if the delegation has its length |
| `Wire.ResponseFrameRoundTrip` | src/wire.rs:127-134 | a response frame that decodes is the one encoding of its parts |
| `Wire.DelegationSurvivesFrames` | src/wire.rs:74-134 | a delegation comes out of both kinds of frame as it went in |
| `Wire.ReadingIsAllOrNothing` | src/wire.rs:143-152 | a stream is read whole or refused, exactly at the limit |
| `Wire.ReplyPayloadBound` | src/node.rs:487-493 | a reply payload arrives exactly up to the configured maximum and 256 bytes more |
| `Wire.WriteRequest` | src/wire.rs:74-84 | the buffer filled step by step is the specified frame |
| `Wire.WriteResponse` | src/wire.rs:118-125 | the buffer filled step by step is the specified frame |
| `Delegations.ParseOfBytes` | src/delegation.rs:50-77 | parsing the bytes of a delegation gives it back |
| `Delegations.BytesOfParse` | src/delegation.rs:50-77 | parsing accepts exactly 136 bytes and loses none of them |
| `Delegations.MessageIsInjective` | src/delegation.rs:41-48 | a signed message stands for one node, one group and one expiry |
| `Delegations.AcceptedExactlyWhen` | src/delegation.rs:94-115 | a delegation counts for a node if and only if it names that node, its group key is a key and signed it, and it has not expired |
| `Delegations.RefusalIsFinal` | src/delegation.rs:94-115 | what is refused now stays refused at any later time |
| `Delegations.WriteMessage` | src/delegation.rs:41-48 | the buffer is the specified message |
| `Delegations.WriteBytes` | src/delegation.rs:70-77 | the array is the specified 136 bytes |
| `Codec.BigBytesRoundTrip` | src/delegation.rs:62-66 | eight big-endian bytes are the only ones that read as their value |
| `ReachabilitySpec.RunKeepsInv` | src/node.rs:1049-1081 | over every run: at most two reservations, none unless PRIVATE and a relay client, none on a relay that failed within the retry time when it was taken, each listening behind just its relay; of the external addresses added here a PRIVATE node has no direct one and any other node every direct one it can announce; a configured PUBLIC or PRIVATE never changes; at most 64 candidates |
| `ReachabilitySpec.EveryRun` | src/node.rs:727-737 | all of that holds from the start on, in every run |
| `ReachabilitySpec.StepKeepsInv` | src/node.rs:1331-1401 | each handler keeps that |
| `ReachabilitySpec.TryAllKeeps` | src/node.rs:1066-1080 | trying relays until two are held keeps the bound, takes none that rests, and concerns no other relay |
| `ReachabilitySpec.CircuitNamesTheRelay` | src/node.rs:1070-1072 | the address a reservation listens on is relayed and names its relay and no other peer, whatever peer the known address named; `EveryRun` keeps this of every reservation |
| `ReachabilitySpec.ToldChanges` | src/node.rs:1376-1387 | every change of reachability is told, and no other step makes the last word untrue |
| `ReachabilitySpec.StartTellsTheTruthExactlyWhen` | src/node.rs:353-364 | after any run, the REACHABILITY event of the start is true if and only if the node was configured PUBLIC or PRIVATE, or AutoNAT has given no verdict in that run |
| `ReachabilitySpec.EarlyVerdictIsHidden` | src/node.rs:760-779 | a run in which AutoNAT decides while the node waits for its listeners, and the caller's last word is UNKNOWN although the node is PRIVATE; within the two seconds of that wait only a build with the test-loopback feature has AutoNAT start |
| `ReachabilityNode.ReachableNode.ReserveRelays` | src/node.rs:1049-1081 | every eligible relay is tried once, in whatever order the table lists them, until two are held, as specified |
| `ReachabilityNode.ReachableNode.SetNatStatus` | src/node.rs:1331-1388 | a deciding verdict drops the direct addresses and reserves, or announces them again and drops relayed addresses and reservations, and is told; any other changes nothing |
| `ReachabilityNode.ReachableNode.LoseRelay` | src/node.rs:1390-1401 | exactly the reservations of that listener are gone, and their relays rest from now on |
| `ReachabilityNode.ReachableNode.Listen` | src/node.rs:1455-1478 | a relayed address is announced, a direct one remembered and announced only by a node that is not private, an unspecified one neither |
| `ReachabilityNode.ReachableNode.StopListening` | src/node.rs:1480-1482 | the address is forgotten and nothing else |
| `ReachabilityNode.ReachableNode.Identified` | src/node.rs:1403-1426 | a peer that relays becomes a candidate on the address it was dialed on or its first usable one, while there is room, and reservations are tried |

## Left out

- The swarm, its transports, Kademlia, gossipsub, AutoNAT, DCUtR and the relay protocol: their answers are arbitrary inputs.
- Calls as objects: the table owns them and nothing else refers to one, so they are values in a map, written back when a handler is done with them.
- The C interface (`src/ffi.rs`), its structures and constants (`src/abi.rs`), panics, threads and the wait inside `poll`: a poll is its body after the wait, and answers 0 only when nothing was there.
- Inbound requests, `Respond` and `Reject`, `may_report`, announcements and topic messages: they use the frames, the delegations and the limits modelled here in straight lines.
- Dialing topic members, re-publishing provider records and pushing identify: they change no table modelled here.
- `provider_key`, `topic_name`, signing, and the text of addresses: library calls; a discovered event carries the list of addresses where the record has their text.
- Rounding of `f64`, and the wrap-around of call ids, request ids and statistics.
- Nodes.Node.TopicLookup: does not record when the topic was last looked up, because topic subscriptions are not part of this model.
- ReachabilityNode.ReachableNode.Listen: leaves out the LISTENING event, the identify push and the request to re-publish the provider record; they depend on nothing and nothing here depends on them.
- ReachabilityNode.ReachableNode.Identified: leaves out the address book and the routing table, which learn the peer's addresses in the same handler; for the book that is `Nodes.Node.AddAddresses`.
- Nodes.Node.Response: sets the failure reason of a call before the reply is examined, where the source sets it only for a refused one; the call of an accepted reply leaves the table, so nobody sees it.
- QueueRuns.Conservation: counts drops exactly below 2^64, where the source's counter ends.
- The connection tables behind `dialed` and `peer_ips`: the address a relay was dialed on is an input of `Identified`.
