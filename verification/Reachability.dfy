/**
  * What a node acts as, public or private, and what follows: which addresses it announces and which relays
  * it holds reservations on. Time is in milliseconds.
  */
module ReachabilitySpec {
  import opened Types
  import opened Multiaddrs

  const MAX_RESERVATIONS: nat := 2
  const RELAY_RETRY: Time := 60 * 1000
  const MAX_RELAY_CANDIDATES: nat := 64

  datatype Reachability = Public | Private | Unknown

  datatype Setup = Setup(configured: Reachability, wildcard: bool, relayClient: bool)

  /**
    * Besides the node's fields and the swarm's external addresses: whose address is whose, and when a relay was
    * taken.
    */
  datatype Node = Node(
    reachability: Reachability,
    listening: set<Multiaddr>,
    candidates: map<Peer, Multiaddr>,
    reservations: map<Peer, nat>,     // relay -> listener
    relayFailed: map<Peer, Time>,
    external: set<Multiaddr>,
    told: seq<Reachability>,          // the reachability events
    own: set<Multiaddr>,              // external addresses this module added
    withdrawn: set<Multiaddr>,        // those that others took away since
    reservedAt: map<Peer, Time>,      // when and on which circuit each reservation was made
    reservedOn: map<Peer, Multiaddr>)

  function Start(setup: Setup): Node {
    Node(setup.configured, {}, map[], map[], map[], {}, [], {}, {}, map[], map[])
  }

  predicate IsPrivate(n: Node) {
    n.reachability.Private?
  }

  // -------- reservations

  /** No new attempt is made on a relay until a minute after it failed. */
  predicate Resting(failed: map<Peer, Time>, relay: Peer, now: Time) {
    relay in failed && Since(now, failed[relay]) < RELAY_RETRY
  }

  predicate Eligible(n: Node, relay: Peer, now: Time) {
    relay in n.candidates && relay !in n.reservations && !Resting(n.relayFailed, relay, now)
  }

  /** Where the node asks to be listened for behind a relay. */
  function Circuit(relay: Peer, address: Multiaddr): Multiaddr {
    WithoutPeer(address) + [P2p(relay), P2pCircuit]
  }

  /** A relayed address through just this relay. */
  predicate NamesOnly(a: Multiaddr, relay: Peer) {
    IsRelayed(a) && P2p(relay) in a && forall p :: p in a && p.P2p? ==> p.peer == relay
  }

  /** A relay to try, the address to listen on, and what the swarm answers: the reservation's listener, or nothing. */
  datatype Attempt = Attempt(relay: Peer, circuit: Multiaddr, listener: Option<nat>)

  /** The attempt is for a relay that may be tried, behind the address it is known on. */
  predicate Tries(n: Node, a: Attempt, now: Time) {
    Eligible(n, a.relay, now) && a.circuit == Circuit(a.relay, n.candidates[a.relay])
  }

  /** The relays to try, each once, in the order the table gives them. */
  ghost predicate ListsEligible(n: Node, now: Time, attempts: seq<Attempt>) {
    && (forall i, j :: 0 <= i < j < |attempts| ==> attempts[i].relay != attempts[j].relay)
    && (forall i :: 0 <= i < |attempts| ==> Tries(n, attempts[i], now))
    && (forall p :: p in n.candidates && Eligible(n, p, now) ==>
          exists i :: 0 <= i < |attempts| && attempts[i].relay == p)
  }

  ghost predicate TriesEligible(setup: Setup, n: Node, now: Time, attempts: seq<Attempt>) {
    Seeks(setup, n) ==> ListsEligible(n, now, attempts)
  }

  function Try(n: Node, a: Attempt, now: Time): Node {
    if |n.reservations| >= MAX_RESERVATIONS then n
    else
      match a.listener
      case Some(l) =>
        n.(reservations := n.reservations[a.relay := l],
           reservedAt := n.reservedAt[a.relay := now], reservedOn := n.reservedOn[a.relay := a.circuit])
      case None => n.(relayFailed := n.relayFailed[a.relay := now])
  }

  function TryAll(n: Node, attempts: seq<Attempt>, now: Time): Node {
    if attempts == [] then n
    else Try(TryAll(n, attempts[..|attempts| - 1], now), attempts[|attempts| - 1], now)
  }

  /** A private node looks for relays until it holds enough reservations. */
  predicate Seeks(setup: Setup, n: Node) {
    IsPrivate(n) && setup.relayClient && |n.reservations| < MAX_RESERVATIONS
  }

  function Reserve(setup: Setup, n: Node, attempts: seq<Attempt>, now: Time): Node {
    if Seeks(setup, n) then TryAll(n, attempts, now) else n
  }

  function Lost(n: Node, listener: nat): set<Peer> {
    set p | p in n.reservations && n.reservations[p] == listener
  }

  function RelayLost(n: Node, listener: nat, now: Time): Node {
    var lost := Lost(n, listener);
    n.(reservations := n.reservations - lost,
       relayFailed := n.relayFailed + map p | p in lost :: now)
  }

  // -------- addresses

  function AddExternal(n: Node, addresses: set<Multiaddr>): Node {
    n.(external := n.external + addresses, own := n.own + addresses, withdrawn := n.withdrawn - addresses)
  }

  function RemoveExternal(n: Node, addresses: set<Multiaddr>): Node {
    n.(external := n.external - addresses, own := n.own - addresses)
  }

  function Direct(addresses: set<Multiaddr>): set<Multiaddr> {
    set a | a in addresses && !IsRelayed(a)
  }

  function Relayed(addresses: set<Multiaddr>): set<Multiaddr> {
    set a | a in addresses && IsRelayed(a)
  }

  /** The loopback address of a node that listens on every interface is no use to anyone else. */
  predicate Announceable(setup: Setup, a: Multiaddr) {
    !(setup.wildcard && IsLoopback(a))
  }

  function NewListenAddr(setup: Setup, n: Node, a: Multiaddr): Node {
    if IsRelayed(a) then AddExternal(n, {a})
    else if IsUnspecified(a) then n
    else
      var heard := n.(listening := n.listening + {a});
      if !IsPrivate(n) && Announceable(setup, a) then AddExternal(heard, {a}) else heard
  }

  function ExpiredListenAddr(n: Node, a: Multiaddr): Node {
    n.(listening := n.listening - {a})
  }

  // -------- AutoNAT

  /** A verdict decides only for a node that was configured unknown; an unknown verdict changes nothing. */
  predicate Decides(setup: Setup, n: Node, status: Reachability) {
    setup.configured.Unknown? && !status.Unknown? && status != n.reachability
  }

  function NatStatus(setup: Setup, n: Node, status: Reachability, attempts: seq<Attempt>, now: Time): Node {
    if !Decides(setup, n, status) then n
    else
      var turned := n.(reachability := status, told := n.told + [status]);
      if status.Private? then Reserve(setup, RemoveExternal(turned, Direct(n.external)), attempts, now)
      else if IsPrivate(n) then Reachable(setup, turned)
      else turned
  }

  /** What changes when a private node turns public: direct addresses come back, relayed ones and reservations go. */
  function Reachable(setup: Setup, n: Node): Node {
    var direct := set a | a in n.listening && Announceable(setup, a);
    var announced := AddExternal(n, direct);
    RemoveExternal(announced, Relayed(announced.external)).(reservations := map[])
  }

  /** What the node tells at its start: what it was configured to be. */
  function Announce(setup: Setup, n: Node): Node {
    n.(told := n.told + [setup.configured])
  }

  // -------- relays that offer

  /** `known` is the address this node dialed, or the first usable one the peer listens on. */
  function Offered(n: Node, relay: Peer, hop: bool, known: Option<Multiaddr>): Node {
    if hop && |n.candidates| < MAX_RELAY_CANDIDATES && known.Some? then
      n.(candidates := n.candidates[relay := known.value])
    else n
  }

  function UsableAddress(dialed: Option<Multiaddr>, listens: seq<Multiaddr>): Option<Multiaddr> {
    if dialed.Some? then dialed
    else if listens == [] then None
    else if !IsRelayed(listens[0]) && !IsUnspecified(listens[0]) then Some(listens[0])
    else UsableAddress(dialed, listens[1..])
  }

  // -------- steps

  datatype Step =
    | OnNatStatus(status: Reachability, attempts: seq<Attempt>, now: Time)
    | OnListenerLost(listener: nat, now: Time)
    | OnNewListenAddr(address: Multiaddr)
    | OnExpiredListenAddr(address: Multiaddr)
    | OnIdentified(relay: Peer, hop: bool, dialed: Option<Multiaddr>, listens: seq<Multiaddr>, attempts: seq<Attempt>,
                   now: Time)
    | OnTick(attempts: seq<Attempt>, now: Time)
    | OnStarted
    | OthersAdd(address: Multiaddr)      // the swarm's own behaviours have external addresses, too
    | OthersRemove(address: Multiaddr)

  /** The state in which the handler of the step looks for relays to try. */
  function BeforeReserving(setup: Setup, n: Node, step: Step): Node {
    match step
    case OnNatStatus(status, _, _) =>
      RemoveExternal(n.(reachability := status, told := n.told + [status]), Direct(n.external))
    case OnIdentified(relay, hop, dialed, listens, _, _) => Offered(n, relay, hop, UsableAddress(dialed, listens))
    case _ => n
  }

  ghost predicate Enabled(setup: Setup, n: Node, step: Step) {
    match step
    case OnNatStatus(status, attempts, now) =>
      Decides(setup, n, status) ==> TriesEligible(setup, BeforeReserving(setup, n, step), now, attempts)
    case OnIdentified(_, _, _, _, attempts, now) => TriesEligible(setup, BeforeReserving(setup, n, step), now, attempts)
    case OnTick(attempts, now) => TriesEligible(setup, n, now, attempts)
    case _ => true
  }

  function Next(setup: Setup, n: Node, step: Step): Node {
    match step
    case OnNatStatus(status, attempts, now) => NatStatus(setup, n, status, attempts, now)
    case OnListenerLost(listener, now) => RelayLost(n, listener, now)
    case OnNewListenAddr(a) => NewListenAddr(setup, n, a)
    case OnExpiredListenAddr(a) => ExpiredListenAddr(n, a)
    case OnIdentified(relay, hop, dialed, listens, attempts, now) =>
      Reserve(setup, Offered(n, relay, hop, UsableAddress(dialed, listens)), attempts, now)
    case OnTick(attempts, now) => Reserve(setup, n, attempts, now)
    case OnStarted => Announce(setup, n)
    case OthersAdd(a) => n.(external := n.external + {a})
    case OthersRemove(a) =>
      n.(external := n.external - {a}, own := n.own - {a},
         withdrawn := if a in n.own then n.withdrawn + {a} else n.withdrawn)
  }

  ghost predicate IsRun(setup: Setup, n: Node, steps: seq<Step>)
    decreases |steps|
  {
    steps == [] || (Enabled(setup, n, steps[0]) && IsRun(setup, Next(setup, n, steps[0]), steps[1..]))
  }

  function After(setup: Setup, n: Node, steps: seq<Step>): Node
    decreases |steps|
  {
    if steps == [] then n else After(setup, Next(setup, n, steps[0]), steps[1..])
  }

  // -------- what always holds

  ghost predicate ReservationsKept(setup: Setup, n: Node) {
    && |n.reservations| <= MAX_RESERVATIONS
    && (n.reservations != map[] ==> IsPrivate(n) && setup.relayClient)
  }

  /** No relay was taken while it was to be left alone. */
  ghost predicate NoneWhileResting(n: Node) {
    forall p :: p in n.reservations ==> p in n.reservedAt && !Resting(n.relayFailed, p, n.reservedAt[p])
  }

  /** Each reservation listens behind its relay and behind nobody else. */
  ghost predicate CircuitsKept(n: Node) {
    forall p :: p in n.reservations ==> p in n.reservedOn && NamesOnly(n.reservedOn[p], p)
  }

  ghost predicate AddressesKept(setup: Setup, n: Node) {
    && n.own <= n.external
    && (forall a :: a in n.listening ==> !IsRelayed(a) && !IsUnspecified(a))
    && (IsPrivate(n) ==> forall a :: a in n.own ==> IsRelayed(a))
    && (!IsPrivate(n) ==> forall a :: a in n.listening && Announceable(setup, a) ==> a in n.own || a in n.withdrawn)
  }

  ghost predicate Inv(setup: Setup, n: Node) {
    && ReservationsKept(setup, n)
    && NoneWhileResting(n)
    && CircuitsKept(n)
    && AddressesKept(setup, n)
    && (!setup.configured.Unknown? ==> n.reachability == setup.configured)
    && |n.candidates| <= MAX_RELAY_CANDIDATES
  }

  // -------- proofs: reserving

  /** Everything that reserving does not touch. */
  ghost predicate OnlyReserved(n: Node, n': Node) {
    n' == n.(reservations := n'.reservations, relayFailed := n'.relayFailed,
             reservedAt := n'.reservedAt, reservedOn := n'.reservedOn)
  }

  predicate SameFor(n: Node, n': Node, p: Peer, now: Time) {
    && (p in n'.reservations <==> p in n.reservations)
    && (Resting(n'.relayFailed, p, now) <==> Resting(n.relayFailed, p, now))
  }

  lemma {:induction false} NoPeerLeft(a: Multiaddr)
    ensures forall p :: p in WithoutPeer(a) ==> !p.P2p?
  {
    if a != [] {
      NoPeerLeft(a[..|a| - 1]);
    }
  }

  /** Whatever peer the known address named, the circuit names the relay and nobody else. */
  lemma CircuitNamesTheRelay(relay: Peer, address: Multiaddr)
    ensures NamesOnly(Circuit(relay, address), relay)
  {
    NoPeerLeft(address);
    var c := Circuit(relay, address);
    assert c[|c| - 1] == P2pCircuit && c[|c| - 2] == P2p(relay);
  }

  lemma TryKeeps(n: Node, a: Attempt, now: Time)
    requires NoneWhileResting(n) && CircuitsKept(n) && |n.reservations| <= MAX_RESERVATIONS
    requires a.relay !in n.reservations && !Resting(n.relayFailed, a.relay, now) && NamesOnly(a.circuit, a.relay)
    ensures var n' := Try(n, a, now);
            && NoneWhileResting(n') && CircuitsKept(n') && |n'.reservations| <= MAX_RESERVATIONS && OnlyReserved(n, n')
            && forall p :: p != a.relay ==> SameFor(n, n', p, now)
  {
    if |n.reservations| < MAX_RESERVATIONS {
      match a.listener
      case Some(l) => TakenKeeps(n, Try(n, a, now), a.relay, a.circuit, l, now);
      case None => RefusedKeeps(n, a.relay, now);
    }
  }

  lemma TakenKeeps(n: Node, n': Node, relay: Peer, circuit: Multiaddr, listener: nat, now: Time)
    requires NoneWhileResting(n) && CircuitsKept(n) && |n.reservations| < MAX_RESERVATIONS
    requires relay !in n.reservations && !Resting(n.relayFailed, relay, now) && NamesOnly(circuit, relay)
    requires n'.reservations == n.reservations[relay := listener] && n'.relayFailed == n.relayFailed
    requires n'.reservedAt == n.reservedAt[relay := now] && n'.reservedOn == n.reservedOn[relay := circuit]
    ensures NoneWhileResting(n') && CircuitsKept(n') && |n'.reservations| <= MAX_RESERVATIONS
    ensures forall p :: p != relay ==> SameFor(n, n', p, now)
  {
    hide Resting, NamesOnly;
    assert n'.reservations.Keys == n.reservations.Keys + {relay};
    RestedAfterTaking(n, n', relay, now);
    CircuitsAfterTaking(n, n', relay, circuit);
    hide NoneWhileResting, CircuitsKept;
    assert |n'.reservations.Keys| <= |n.reservations.Keys| + 1;
  }

  lemma CircuitsAfterTaking(n: Node, n': Node, relay: Peer, circuit: Multiaddr)
    requires CircuitsKept(n) && NamesOnly(circuit, relay)
    requires n'.reservedOn == n.reservedOn[relay := circuit] && n'.reservations.Keys == n.reservations.Keys + {relay}
    ensures CircuitsKept(n')
  {
    hide NamesOnly;
  }

  lemma RestedAfterTaking(n: Node, n': Node, relay: Peer, now: Time)
    requires NoneWhileResting(n) && !Resting(n.relayFailed, relay, now)
    requires n'.relayFailed == n.relayFailed && n'.reservedAt == n.reservedAt[relay := now]
    requires n'.reservations.Keys == n.reservations.Keys + {relay}
    ensures NoneWhileResting(n')
  {
    hide Resting;
  }

  lemma RefusedKeeps(n: Node, relay: Peer, now: Time)
    requires NoneWhileResting(n) && relay !in n.reservations
    ensures var n' := n.(relayFailed := n.relayFailed[relay := now]);
            NoneWhileResting(n') && forall p :: p != relay ==> SameFor(n, n', p, now)
  {
  }

  lemma {:induction false} TryAllKeeps(n: Node, attempts: seq<Attempt>, now: Time)
    requires NoneWhileResting(n) && CircuitsKept(n) && |n.reservations| <= MAX_RESERVATIONS
    requires forall i, j :: 0 <= i < j < |attempts| ==> attempts[i].relay != attempts[j].relay
    requires forall i :: 0 <= i < |attempts| ==> Tries(n, attempts[i], now)
    ensures var n' := TryAll(n, attempts, now);
            && NoneWhileResting(n') && CircuitsKept(n') && |n'.reservations| <= MAX_RESERVATIONS && OnlyReserved(n, n')
            && forall p :: (forall i :: 0 <= i < |attempts| ==> attempts[i].relay != p) ==> SameFor(n, n', p, now)
  {
    if attempts != [] {
      var init, a := attempts[..|attempts| - 1], attempts[|attempts| - 1];
      TryAllKeeps(n, init, now);
      assert forall i :: 0 <= i < |init| ==> init[i] == attempts[i] && init[i].relay != a.relay;
      var m := TryAll(n, init, now);
      assert SameFor(n, m, a.relay, now);
      CircuitNamesTheRelay(a.relay, n.candidates[a.relay]);
      TryKeeps(m, a, now);
      forall p | forall i :: 0 <= i < |attempts| ==> attempts[i].relay != p
        ensures SameFor(n, TryAll(n, attempts, now), p, now)
      {
        assert attempts[|attempts| - 1].relay != p;
        assert SameFor(n, m, p, now) && SameFor(m, Try(m, a, now), p, now);
      }
    }
  }

  lemma ReserveKeeps(setup: Setup, n: Node, attempts: seq<Attempt>, now: Time)
    requires Inv(setup, n) && TriesEligible(setup, n, now, attempts)
    ensures Inv(setup, Reserve(setup, n, attempts, now))
  {
    if Seeks(setup, n) {
      TryAllKeeps(n, attempts, now);
    }
  }

  // -------- proofs: the other steps

  lemma FewerReservations(n: Node, lost: set<Peer>)
    ensures |n.reservations - lost| <= |n.reservations|
  {
    assert (n.reservations - lost).Keys == n.reservations.Keys - lost;
    assert |n.reservations.Keys - lost| <= |n.reservations.Keys|;
  }

  lemma OthersStillRested(n: Node, listener: nat, now: Time)
    requires NoneWhileResting(n) && CircuitsKept(n)
    ensures NoneWhileResting(RelayLost(n, listener, now)) && CircuitsKept(RelayLost(n, listener, now))
  {
    hide NamesOnly;
  }

  lemma SameAddresses(setup: Setup, n: Node, n': Node)
    requires AddressesKept(setup, n) && n'.reachability == n.reachability && n'.listening == n.listening
    requires n'.own == n.own && n'.external == n.external && n'.withdrawn == n.withdrawn
    ensures AddressesKept(setup, n')
  {
  }

  lemma LostKeeps(setup: Setup, n: Node, listener: nat, now: Time)
    requires Inv(setup, n)
    ensures Inv(setup, RelayLost(n, listener, now))
  {
    hide NoneWhileResting, CircuitsKept, Lost, AddressesKept;
    FewerReservations(n, Lost(n, listener));
    OthersStillRested(n, listener, now);
    SameAddresses(setup, n, RelayLost(n, listener, now));
  }

  lemma PrivateKeeps(setup: Setup, n: Node, attempts: seq<Attempt>, now: Time)
    requires Inv(setup, n) && setup.configured.Unknown? && !IsPrivate(n)
    requires TriesEligible(setup, BeforeReserving(setup, n, OnNatStatus(Private, attempts, now)), now, attempts)
    ensures Inv(setup, NatStatus(setup, n, Private, attempts, now))
  {
    ReserveKeeps(setup, BeforeReserving(setup, n, OnNatStatus(Private, attempts, now)), attempts, now);
  }

  lemma PublicKeeps(setup: Setup, n: Node)
    requires Inv(setup, n) && setup.configured.Unknown?
    ensures IsPrivate(n) ==> Inv(setup, Reachable(setup, n.(reachability := Public, told := n.told + [Public])))
    ensures !IsPrivate(n) ==> Inv(setup, n.(reachability := Public, told := n.told + [Public]))
  {
  }

  lemma StatusKeeps(setup: Setup, n: Node, status: Reachability, attempts: seq<Attempt>, now: Time)
    requires Inv(setup, n) && Enabled(setup, n, OnNatStatus(status, attempts, now))
    ensures Inv(setup, NatStatus(setup, n, status, attempts, now))
  {
    if Decides(setup, n, status) {
      if status.Private? {
        PrivateKeeps(setup, n, attempts, now);
      } else {
        PublicKeeps(setup, n);
      }
    }
  }

  lemma OfferedKeeps(setup: Setup, n: Node, relay: Peer, hop: bool, known: Option<Multiaddr>)
    requires Inv(setup, n)
    ensures Inv(setup, Offered(n, relay, hop, known))
  {
    hide Inv;
    if hop && |n.candidates| < MAX_RELAY_CANDIDATES && known.Some? {
      CountOneMore(n.candidates, relay, known.value);
      CandidatesKeep(setup, n, n.candidates[relay := known.value]);
    }
  }

  lemma CountOneMore(candidates: map<Peer, Multiaddr>, relay: Peer, address: Multiaddr)
    ensures |candidates[relay := address]| <= |candidates| + 1
  {
    assert candidates[relay := address].Keys == candidates.Keys + {relay};
  }

  lemma CandidatesKeep(setup: Setup, n: Node, candidates: map<Peer, Multiaddr>)
    requires Inv(setup, n) && |candidates| <= MAX_RELAY_CANDIDATES
    ensures Inv(setup, n.(candidates := candidates))
  {
    hide NamesOnly, Resting;
  }

  lemma SameReservations(setup: Setup, n: Node, n': Node)
    requires ReservationsKept(setup, n) && NoneWhileResting(n) && CircuitsKept(n)
    requires n'.reachability == n.reachability && n'.reservations == n.reservations && n'.relayFailed == n.relayFailed
    requires n'.reservedAt == n.reservedAt && n'.reservedOn == n.reservedOn
    ensures ReservationsKept(setup, n') && NoneWhileResting(n') && CircuitsKept(n')
  {
  }

  lemma AddressStepKeeps(setup: Setup, n: Node, step: Step)
    requires Inv(setup, n) && IsAddressStep(step)
    ensures Inv(setup, Next(setup, n, step))
  {
    hide Next, ReservationsKept, NoneWhileResting, CircuitsKept, AddressesKept;
    SameElse(setup, n, step);
    SameReservations(setup, n, Next(setup, n, step));
    AddressesStillKept(setup, n, step);
  }

  /** A step that is only about addresses. */
  predicate IsAddressStep(step: Step) {
    step.OnNewListenAddr? || step.OnExpiredListenAddr? || step.OnStarted? || step.OthersAdd? || step.OthersRemove?
  }

  ghost predicate SameRelays(n: Node, n': Node) {
    && n'.reachability == n.reachability && n'.candidates == n.candidates && n'.reservations == n.reservations
    && n'.relayFailed == n.relayFailed && n'.reservedAt == n.reservedAt && n'.reservedOn == n.reservedOn
  }

  lemma ListenLeaves(setup: Setup, n: Node, a: Multiaddr)
    ensures SameRelays(n, NewListenAddr(setup, n, a))
  {
    var heard := n.(listening := n.listening + {a});
    if IsRelayed(a) {
      assert SameRelays(n, AddExternal(n, {a}));
    } else if !IsUnspecified(a) && !IsPrivate(n) && Announceable(setup, a) {
      assert SameRelays(heard, AddExternal(heard, {a}));
    }
  }

  lemma SameElse(setup: Setup, n: Node, step: Step)
    requires IsAddressStep(step)
    ensures SameRelays(n, Next(setup, n, step))
  {
    match step
    case OnNewListenAddr(a) =>
      hide NewListenAddr;
      ListenLeaves(setup, n, a);
    case OnExpiredListenAddr(_) =>
    case OnStarted =>
    case OthersAdd(_) =>
    case OthersRemove(_) =>
  }

  lemma AddressesStillKept(setup: Setup, n: Node, step: Step)
    requires AddressesKept(setup, n) && IsAddressStep(step)
    ensures AddressesKept(setup, Next(setup, n, step))
  {
    hide AddressesKept;
    match step
    case OnNewListenAddr(a) => ListenKeeps(setup, n, a);
    case OthersRemove(a) => RemovalKeeps(setup, n, a);
    case _ => OtherAddressesKept(setup, n, step);
  }

  lemma OtherAddressesKept(setup: Setup, n: Node, step: Step)
    requires AddressesKept(setup, n) && (step.OnExpiredListenAddr? || step.OnStarted? || step.OthersAdd?)
    ensures AddressesKept(setup, Next(setup, n, step))
  {
    hide IsRelayed, IsUnspecified, IsLoopback;
  }

  lemma ListenKeeps(setup: Setup, n: Node, a: Multiaddr)
    requires AddressesKept(setup, n)
    ensures AddressesKept(setup, NewListenAddr(setup, n, a))
  {
    hide IsRelayed, IsUnspecified, IsLoopback;
  }

  lemma RemovalKeeps(setup: Setup, n: Node, a: Multiaddr)
    requires AddressesKept(setup, n)
    ensures AddressesKept(setup, Next(setup, n, OthersRemove(a)))
  {
    hide IsRelayed, IsUnspecified, IsLoopback;
  }

  lemma StepKeepsInv(setup: Setup, n: Node, step: Step)
    requires Inv(setup, n) && Enabled(setup, n, step)
    ensures Inv(setup, Next(setup, n, step))
  {
    hide Inv;
    match step
    case OnNatStatus(status, attempts, now) => StatusKeeps(setup, n, status, attempts, now);
    case OnListenerLost(listener, now) => LostKeeps(setup, n, listener, now);
    case OnIdentified(relay, hop, dialed, listens, attempts, now) =>
      OfferedKeeps(setup, n, relay, hop, UsableAddress(dialed, listens));
      ReserveKeeps(setup, Offered(n, relay, hop, UsableAddress(dialed, listens)), attempts, now);
    case OnTick(attempts, now) => ReserveKeeps(setup, n, attempts, now);
    case _ => AddressStepKeeps(setup, n, step);
  }

  /**
    * Over every run: at most two reservations, none unless private, none on a relay that was to be left alone;
    * of the external addresses added here a private node has no direct one, any other node every direct one it
    * can announce, unless others took it away; a node configured public or private stays that.
    */
  lemma {:induction false} RunKeepsInv(setup: Setup, n: Node, steps: seq<Step>)
    requires Inv(setup, n) && IsRun(setup, n, steps)
    ensures Inv(setup, After(setup, n, steps))
    decreases |steps|
  {
    if steps != [] {
      StepKeepsInv(setup, n, steps[0]);
      RunKeepsInv(setup, Next(setup, n, steps[0]), steps[1..]);
    }
  }

  /** So it is from the start on, in every run. */
  lemma EveryRun(setup: Setup, steps: seq<Step>)
    requires IsRun(setup, Start(setup), steps)
    ensures Inv(setup, After(setup, Start(setup), steps))
  {
    RunKeepsInv(setup, Start(setup), steps);
  }

  // -------- what the caller is told

  predicate LastToldIsTrue(n: Node) {
    n.told != [] && n.told[|n.told| - 1] == n.reachability
  }

  lemma {:induction false} TryAllTellsNothing(n: Node, attempts: seq<Attempt>, now: Time)
    ensures TryAll(n, attempts, now).told == n.told && TryAll(n, attempts, now).reachability == n.reachability
  {
    if attempts != [] {
      TryAllTellsNothing(n, attempts[..|attempts| - 1], now);
    }
  }

  lemma ReservingTellsNothing(setup: Setup, n: Node, attempts: seq<Attempt>, now: Time)
    ensures Reserve(setup, n, attempts, now).told == n.told
    ensures Reserve(setup, n, attempts, now).reachability == n.reachability
  {
    TryAllTellsNothing(n, attempts, now);
  }

  /** A deciding verdict is told and acted on; the start tells what was configured; nothing else is told. */
  ghost predicate Tells(setup: Setup, n: Node, step: Step, n': Node) {
    if step.OnNatStatus? && Decides(setup, n, step.status) then
      n'.told == n.told + [step.status] && n'.reachability == step.status
    else
      && n'.reachability == n.reachability
      && n'.told == n.told + (if step.OnStarted? then [setup.configured] else [])
  }

  lemma PrivateTells(setup: Setup, n: Node, attempts: seq<Attempt>, now: Time)
    requires Decides(setup, n, Private)
    ensures Tells(setup, n, OnNatStatus(Private, attempts, now), NatStatus(setup, n, Private, attempts, now))
  {
    hide Reserve;
    var turned := n.(reachability := Private, told := n.told + [Private]);
    ReservingTellsNothing(setup, RemoveExternal(turned, Direct(n.external)), attempts, now);
  }

  lemma PublicTells(setup: Setup, n: Node, attempts: seq<Attempt>, now: Time)
    requires Decides(setup, n, Public)
    ensures Tells(setup, n, OnNatStatus(Public, attempts, now), NatStatus(setup, n, Public, attempts, now))
  {
    var turned := n.(reachability := Public, told := n.told + [Public]);
    if IsPrivate(n) {
      assert NatStatus(setup, n, Public, attempts, now) == Reachable(setup, turned);
    } else {
      assert NatStatus(setup, n, Public, attempts, now) == turned;
    }
  }

  lemma AddressStepTells(setup: Setup, n: Node, step: Step)
    requires IsAddressStep(step)
    ensures Tells(setup, n, step, Next(setup, n, step))
  {
    SameElse(setup, n, step);
    assert step.OnNewListenAddr? ==> NewListenAddr(setup, n, step.address).told == n.told by {
      if step.OnNewListenAddr? {
        ListenTellsNothing(setup, n, step.address);
      }
    }
    hide NewListenAddr;
  }

  lemma ListenTellsNothing(setup: Setup, n: Node, a: Multiaddr)
    ensures NewListenAddr(setup, n, a).told == n.told
  {
    if IsRelayed(a) {
    } else if IsUnspecified(a) {
    } else if !IsPrivate(n) && Announceable(setup, a) {
    }
  }

  lemma StatusTells(setup: Setup, n: Node, status: Reachability, attempts: seq<Attempt>, now: Time)
    ensures Tells(setup, n, OnNatStatus(status, attempts, now), NatStatus(setup, n, status, attempts, now))
  {
    match status
    case Private =>
      if Decides(setup, n, Private) {
        PrivateTells(setup, n, attempts, now);
      }
    case Public =>
      if Decides(setup, n, Public) {
        PublicTells(setup, n, attempts, now);
      }
    case Unknown =>
  }

  lemma StepTells(setup: Setup, n: Node, step: Step)
    ensures Tells(setup, n, step, Next(setup, n, step))
  {
    match step
    case OnNatStatus(status, attempts, now) =>
      hide NatStatus;
      StatusTells(setup, n, status, attempts, now);
    case OnListenerLost(_, _) =>
    case OnIdentified(relay, hop, dialed, listens, attempts, now) =>
      hide Reserve, UsableAddress;
      ReservingTellsNothing(setup, Offered(n, relay, hop, UsableAddress(dialed, listens)), attempts, now);
    case OnTick(attempts, now) =>
      hide Reserve;
      ReservingTellsNothing(setup, n, attempts, now);
    case _ => AddressStepTells(setup, n, step);
  }

  /** Every step but the start tells the truth if the last word was true, and a change always does. */
  lemma ToldChanges(setup: Setup, n: Node, step: Step)
    requires !step.OnStarted?
    ensures LastToldIsTrue(n) ==> LastToldIsTrue(Next(setup, n, step))
    ensures Next(setup, n, step).reachability != n.reachability ==> LastToldIsTrue(Next(setup, n, step))
  {
    hide Next, Decides;
    StepTells(setup, n, step);
  }

  /** AutoNAT says whether the node can be reached. */
  predicate IsVerdict(step: Step) {
    step.OnNatStatus? && !step.status.Unknown?
  }

  /** A node configured unknown acts as unknown exactly until the first verdict. */
  lemma {:induction false} UnknownUntilAVerdict(setup: Setup, n: Node, steps: seq<Step>)
    requires setup.configured.Unknown?
    ensures After(setup, n, steps).reachability.Unknown? <==>
              n.reachability.Unknown? && forall i :: 0 <= i < |steps| ==> !IsVerdict(steps[i])
    decreases |steps|
  {
    if steps != [] {
      var m, rest := Next(setup, n, steps[0]), steps[1..];
      OneVerdictDecides(setup, n, steps[0]);
      UnknownUntilAVerdict(setup, m, rest);
      assert forall i :: 0 <= i < |rest| ==> rest[i] == steps[i + 1];
      assert (forall i :: 0 <= i < |steps| ==> !IsVerdict(steps[i])) ==>
          !IsVerdict(steps[0]) && forall i :: 0 <= i < |rest| ==> !IsVerdict(rest[i]);
    }
  }

  lemma OneVerdictDecides(setup: Setup, n: Node, step: Step)
    requires setup.configured.Unknown?
    ensures Next(setup, n, step).reachability.Unknown? <==> n.reachability.Unknown? && !IsVerdict(step)
  {
    hide Reserve, UsableAddress;
    hide Next;
    StepTells(setup, n, step);
  }

  /**
    * The start tells what was configured, whatever has happened since the listeners were set up. It is the truth
    * exactly when something else than unknown was configured, or AutoNAT has given no verdict by then.
    */
  lemma StartTellsTheTruthExactlyWhen(setup: Setup, steps: seq<Step>)
    requires IsRun(setup, Start(setup), steps)
    ensures LastToldIsTrue(Next(setup, After(setup, Start(setup), steps), OnStarted)) <==>
              !setup.configured.Unknown? || forall i :: 0 <= i < |steps| ==> !IsVerdict(steps[i])
  {
    hide Next, ReservationsKept, NoneWhileResting, CircuitsKept, AddressesKept;
    EveryRun(setup, steps);
    StepTells(setup, After(setup, Start(setup), steps), OnStarted);
    if setup.configured.Unknown? {
      UnknownUntilAVerdict(setup, Start(setup), steps);
    }
  }

  /**
    * A verdict while the node still waits for its listeners: the last the caller hears is that nothing is known.
    * The wait is at most two seconds, so this takes AutoNAT to be that quick: the test-loopback feature sets it
    * to start after half a second, other builds leave its library's own delay in force.
    */
  lemma EarlyVerdictIsHidden()
    ensures var setup := Setup(Unknown, false, false);
            var steps := [OnNatStatus(Private, [], 0), OnStarted];
            && IsRun(setup, Start(setup), steps)
            && After(setup, Start(setup), steps).reachability == Private
            && After(setup, Start(setup), steps).told == [Private, Unknown]
  {
    var setup := Setup(Unknown, false, false);
    var n := Next(setup, Start(setup), OnNatStatus(Private, [], 0));
    assert n.told == [Private];
    assert [OnNatStatus(Private, [], 0), OnStarted][1..] == [OnStarted];
    assert After(setup, n, [OnStarted]) == Next(setup, n, OnStarted) by {
      assert [OnStarted][1..] == [];
    }
    assert IsRun(setup, n, [OnStarted]);
  }
}
