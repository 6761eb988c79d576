/** The same in place: the fields of the node, and the handlers that change them. */
module ReachabilityNode {
  import opened Types
  import opened Multiaddrs
  import opened ReachabilitySpec

  /** One attempt for each relay, on the circuit behind its known address. */
  ghost function Attempts(relays: seq<Peer>, candidates: map<Peer, Multiaddr>,
                          listenOn: Multiaddr -> Option<nat>): (r: seq<Attempt>)
    requires forall i :: 0 <= i < |relays| ==> relays[i] in candidates
    ensures |r| == |relays|
    ensures forall i :: 0 <= i < |r| ==>
              && r[i].relay == relays[i] && r[i].circuit == Circuit(relays[i], candidates[relays[i]])
              && r[i].listener == listenOn(r[i].circuit)
  {
    seq(|relays|, i requires 0 <= i < |relays| =>
      var circuit := Circuit(relays[i], candidates[relays[i]]);
      Attempt(relays[i], circuit, listenOn(circuit)))
  }

  lemma AttemptsListEligible(n: Node, relays: seq<Peer>, listenOn: Multiaddr -> Option<nat>, now: Time)
    requires Distinct(relays) && forall p :: p in relays <==> Eligible(n, p, now)
    ensures forall i :: 0 <= i < |relays| ==> relays[i] in n.candidates
    ensures ListsEligible(n, now, Attempts(relays, n.candidates, listenOn))
  {
    assert forall i :: 0 <= i < |relays| ==> relays[i] in relays && Eligible(n, relays[i], now);
    var attempts := Attempts(relays, n.candidates, listenOn);
    forall p | p in n.candidates && Eligible(n, p, now)
      ensures exists i :: 0 <= i < |attempts| && attempts[i].relay == p
    {
      assert p in relays;
      var i :| 0 <= i < |relays| && relays[i] == p;
      assert attempts[i].relay == p;
    }
  }

  lemma TryOneMore(n: Node, attempts: seq<Attempt>, i: nat, now: Time)
    requires i < |attempts|
    ensures TryAll(n, attempts[..i + 1], now) == Try(TryAll(n, attempts[..i], now), attempts[i], now)
  {
    assert attempts[..i + 1][..i] == attempts[..i];
  }

  class ReachableNode {
    const setup: Setup
    var reachability: Reachability
    var listening: set<Multiaddr>
    var candidates: map<Peer, Multiaddr>
    var reservations: map<Peer, nat>
    var relayFailed: map<Peer, Time>
    var external: set<Multiaddr>
    var told: seq<Reachability>

    ghost var node: Node

    ghost predicate Valid()
      reads this
    {
      && node.reachability == reachability && node.listening == listening && node.candidates == candidates
      && node.reservations == reservations && node.relayFailed == relayFailed && node.external == external
      && node.told == told
    }

    constructor (setup: Setup)
      ensures Valid() && this.setup == setup && node == Start(setup)
    {
      this.setup := setup;
      reachability, listening, candidates, reservations := setup.configured, {}, map[], map[];
      relayFailed, external, told := map[], {}, [];
      node := Start(setup);
    }

    /** The relays that offered, less those that are reserved on and those that failed a short while ago. */
    method EligibleRelays(now: Time) returns (relays: seq<Peer>)
      requires Valid()
      ensures Distinct(relays) && forall p :: p in relays <==> Eligible(node, p, now)
      ensures forall i :: 0 <= i < |relays| ==> relays[i] in candidates
    {
      relays := [];
      var left := candidates.Keys;
      while left != {}
        invariant left <= candidates.Keys && Distinct(relays)
        invariant forall p :: p in relays <==> Eligible(node, p, now) && p !in left
        decreases left
      {
        var p :| p in left;
        left := left - {p};
        if p !in reservations && !Resting(relayFailed, p, now) {
          relays := relays + [p];
        }
      }
    }

    /** Looks for relays as long as they are needed: `listenOn` is what the swarm answers to each circuit address. */
    method ReserveRelays(now: Time, listenOn: Multiaddr -> Option<nat>) returns (ghost attempts: seq<Attempt>)
      requires Valid()
      modifies this
      ensures TriesEligible(setup, old(node), now, attempts)
      ensures forall i :: 0 <= i < |attempts| ==> attempts[i].listener == listenOn(attempts[i].circuit)
      ensures Valid() && node == Reserve(setup, old(node), attempts, now)
    {
      if reachability != Private || !setup.relayClient || |reservations| >= MAX_RESERVATIONS {
        return [];
      }
      var relays := EligibleRelays(now);
      attempts := Attempts(relays, candidates, listenOn);
      AttemptsListEligible(node, relays, listenOn, now);
      for i := 0 to |relays|
        invariant Valid() && node == TryAll(old(node), attempts[..i], now) && candidates == old(candidates)
      {
        hide TryAll;
        TryOneMore(old(node), attempts, i, now);
        var circuit := Circuit(relays[i], candidates[relays[i]]);
        TryOne(relays[i], circuit, listenOn(circuit), now);
      }
      assert attempts[..|relays|] == attempts;
    }

    method TryOne(relay: Peer, ghost circuit: Multiaddr, answer: Option<nat>, now: Time)
      requires Valid()
      modifies this
      ensures Valid() && node == Try(old(node), Attempt(relay, circuit, answer), now) && candidates == old(candidates)
    {
      if |reservations| < MAX_RESERVATIONS {
        match answer
        case Some(listener) => reservations := reservations[relay := listener];
        case None => relayFailed := relayFailed[relay := now];
      }
      node := Try(node, Attempt(relay, circuit, answer), now);
    }

    method LoseRelay(listener: nat, now: Time)
      requires Valid()
      modifies this
      ensures Valid() && node == RelayLost(old(node), listener, now)
    {
      var lost := set p | p in reservations && reservations[p] == listener;
      reservations := reservations - lost;
      relayFailed := relayFailed + map p | p in lost :: now;
      node := RelayLost(node, listener, now);
    }

    method Listen(a: Multiaddr)
      requires Valid()
      modifies this
      ensures Valid() && node == NewListenAddr(setup, old(node), a)
    {
      if IsRelayed(a) {
        external := external + {a};
      } else if !IsUnspecified(a) {
        listening := listening + {a};
      }
      var loopbackOfWildcard := setup.wildcard && IsLoopback(a);
      if !IsRelayed(a) && reachability != Private && !IsUnspecified(a) && !loopbackOfWildcard {
        external := external + {a};
      }
      node := NewListenAddr(setup, node, a);
    }

    method StopListening(a: Multiaddr)
      requires Valid()
      modifies this
      ensures Valid() && node == ExpiredListenAddr(old(node), a)
    {
      listening := listening - {a};
      node := ExpiredListenAddr(node, a);
    }

    /** AutoNAT's verdict. */
    method SetNatStatus(status: Reachability, now: Time,
                        listenOn: Multiaddr -> Option<nat>) returns (ghost attempts: seq<Attempt>)
      requires Valid()
      modifies this
      ensures Enabled(setup, old(node), OnNatStatus(status, attempts, now))
      ensures Valid() && node == NatStatus(setup, old(node), status, attempts, now)
    {
      attempts := [];
      if setup.configured != Unknown || status == Unknown || status == reachability {
        return;
      }
      var wasPrivate := reachability == Private;
      reachability := status;
      told := told + [status];
      node := node.(reachability := status, told := node.told + [status]);
      if status == Private {
        DropDirect();
        attempts := ReserveRelays(now, listenOn);
      } else if wasPrivate {
        AnnounceDirect();
      }
    }

    /** No direct address is announced any more. */
    method DropDirect()
      requires Valid()
      modifies this
      ensures Valid() && node == RemoveExternal(old(node), Direct(old(node).external))
    {
      var direct := set a | a in external && !IsRelayed(a);
      external := external - direct;
      node := RemoveExternal(node, Direct(node.external));
    }

    /** The direct addresses are announced, the relayed ones dropped and the relays let go. */
    method AnnounceDirect()
      requires Valid()
      modifies this
      ensures Valid() && node == Reachable(setup, old(node))
    {
      var direct := set a | a in listening && !(setup.wildcard && IsLoopback(a));
      external := external + direct;
      var relayed := set a | a in external && IsRelayed(a);
      external := external - relayed;
      reservations := map[];
      node := Reachable(setup, node);
    }

    method Identified(relay: Peer, hop: bool, dialed: Option<Multiaddr>, listens: seq<Multiaddr>, now: Time,
                      listenOn: Multiaddr -> Option<nat>) returns (ghost attempts: seq<Attempt>)
      requires Valid()
      modifies this
      ensures Enabled(setup, old(node), OnIdentified(relay, hop, dialed, listens, attempts, now))
      ensures Valid() && node == Next(setup, old(node), OnIdentified(relay, hop, dialed, listens, attempts, now))
    {
      if hop && |candidates| < MAX_RELAY_CANDIDATES {
        match UsableAddress(dialed, listens)
        case Some(address) => candidates := candidates[relay := address];
        case None =>
      }
      node := Offered(node, relay, hop, UsableAddress(dialed, listens));
      attempts := ReserveRelays(now, listenOn);
    }
  }
}
